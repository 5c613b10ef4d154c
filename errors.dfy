/**
 * The error types of `src/error.rs`: `BotError`, an error attributed to one
 * bot, and `AddBotError`, the ways registering a bot can fail, with their
 * `Display` renderings. The inner errors (a URL parse error, a request error)
 * stay abstract: they are type parameters, rendered by a `show` function that
 * stands for their own `Display`.
 */
module Errors {
  import opened Wrappers
  import Text

  /** An error of type `E` attributed to the bot `botId`. */
  datatype BotError<E> = BotError(botId: string, inner: E)

  /** `BotError::new`: the id and the error are stored as given. */
  function NewBotError<E>(botId: string, error: E): (b: BotError<E>)
    ensures b.botId == botId && b.inner == error
  {
    BotError(botId, error)
  }

  /** `From<(S, E)>`: an `(id, error)` pair converts to the same value `new` builds. */
  function FromPair<E>(pair: (string, E)): (b: BotError<E>)
    ensures b.botId == pair.0 && b.inner == pair.1
  {
    NewBotError(pair.0, pair.1)
  }

  /** `Display` for `BotError`: `bot <id> error: <inner>`. */
  function BotErrorText<E>(b: BotError<E>, show: E -> string): (t: string)
    ensures |t| == 12 + |b.botId| + |show(b.inner)|
    ensures t[..4] == "bot " && t[4..4 + |b.botId|] == b.botId
    ensures t[4 + |b.botId|..12 + |b.botId|] == " error: " && t[12 + |b.botId|..] == show(b.inner)
  {
    "bot " + b.botId + " error: " + show(b.inner)
  }

  /** Reads a `BotError` rendering back into the bot id and the inner error's
      text; the id is taken to end at the first space. */
  function ParseBotErrorText(s: string): Option<(string, string)>
  {
    if |s| < 4 || s[..4] != "bot " then None
    else
      Text.SplitFirst(s[4..], ' ');
      var id := Text.Split(s[4..], ' ')[0];
      var rest := s[4 + |id|..];
      if |rest| < 8 || rest[..8] != " error: " then None
      else Some((id, rest[8..]))
  }

  /** A `BotError` rendering names its bot and its cause unambiguously: for a
      bot id without spaces (ids are token prefixes), both can be read back. */
  lemma BotErrorTextRoundTrip<E>(b: BotError<E>, show: E -> string)
    requires ' ' !in b.botId
    ensures ParseBotErrorText(BotErrorText(b, show)) == Some((b.botId, show(b.inner)))
  {
    var s := BotErrorText(b, show);
    var tail := "error: " + show(b.inner);
    assert s[..4] == "bot ";
    assert s[4..] == b.botId + [' '] + tail;
    Text.SplitAfterPiece(b.botId, tail, ' ');
    assert s[4 + |b.botId|..] == " error: " + show(b.inner);
  }

  /** Why registering one bot failed. */
  datatype AddBotError<U, R> =
    | IdParse(token: string)
    | UrlParse(urlError: BotError<U>)
    | Listener(listenerError: BotError<R>)

  const IdParsePrefix: string := "failed to parse bot id in token: "

  /** `Display` for `AddBotError`: the raw token for `IdParse`, and the wrapped
      `BotError`'s own rendering for `UrlParse` and `Listener`. */
  function AddBotErrorText<U, R>(e: AddBotError<U, R>, showUrl: U -> string, showRequest: R -> string): (t: string)
    ensures e.IdParse? <==> |t| >= |IdParsePrefix| && t[..|IdParsePrefix|] == IdParsePrefix
    ensures e.IdParse? ==> t[|IdParsePrefix|..] == e.token
    ensures e.UrlParse? ==> t == BotErrorText(e.urlError, showUrl)
    ensures e.Listener? ==> t == BotErrorText(e.listenerError, showRequest)
  {
    match e
    case IdParse(token) => IdParsePrefix + token
    case UrlParse(b) =>
      var t := BotErrorText(b, showUrl);
      assert t[0] == 'b' && IdParsePrefix[0] == 'f';
      t
    case Listener(b) =>
      var t := BotErrorText(b, showRequest);
      assert t[0] == 'b' && IdParsePrefix[0] == 'f';
      t
  }

  /** What a reader of the log can tell from an `AddBotError` rendering. */
  datatype Reading = TokenNotParsed(token: string) | BotFailed(botId: string, cause: string)

  function ParseAddBotErrorText(s: string): Option<Reading>
  {
    if |s| >= |IdParsePrefix| && s[..|IdParsePrefix|] == IdParsePrefix then
      Some(TokenNotParsed(s[|IdParsePrefix|..]))
    else
      match ParseBotErrorText(s)
      case Some(pair) => Some(BotFailed(pair.0, pair.1))
      case None => None
  }

  /** The three renderings can be read back: `IdParse` gives back its token,
      the other two give back the bot id and cause of the wrapped error.
      `UrlParse` and `Listener` with the same id and cause text read the same:
      the rendering does not say which of the two happened. */
  lemma AddBotErrorTextRoundTrip<U, R>(e: AddBotError<U, R>, showUrl: U -> string, showRequest: R -> string)
    requires e.UrlParse? ==> ' ' !in e.urlError.botId
    requires e.Listener? ==> ' ' !in e.listenerError.botId
    ensures ParseAddBotErrorText(AddBotErrorText(e, showUrl, showRequest)) ==
      match e
      case IdParse(token) => Some(TokenNotParsed(token))
      case UrlParse(b) => Some(BotFailed(b.botId, showUrl(b.inner)))
      case Listener(b) => Some(BotFailed(b.botId, showRequest(b.inner)))
  {
    var s := AddBotErrorText(e, showUrl, showRequest);
    match e
    case IdParse(token) =>
      assert s[..|IdParsePrefix|] == IdParsePrefix;
      assert s[|IdParsePrefix|..] == token;
    case UrlParse(b) =>
      assert s[0] == 'b' && IdParsePrefix[0] == 'f';
      BotErrorTextRoundTrip(b, showUrl);
    case Listener(b) =>
      assert s[0] == 'b' && IdParsePrefix[0] == 'f';
      BotErrorTextRoundTrip(b, showRequest);
  }
}
