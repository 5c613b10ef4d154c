/**
 * The top-level dialogue of `src/handlers/states.rs`: the dialogue state, the
 * bot commands, the `start` and `command` endpoints, and the branch tree
 * `schema()` that picks one endpoint for each incoming update. A per-chat
 * store of dialogue states and a run over a stream of updates show what the
 * tree does to a conversation over time.
 */
module States {
  import opened Wrappers
  import opened Messages
  import AdminHandler
  import ReaderHandler

  /** The dialogue state of one chat. */
  datatype State =
    | Start
    | Admin(admin: AdminHandler.AdminState)
    | Reader(reader: ReaderHandler.ReaderState)

  /** A chat never seen before is in `Start`. */
  function DefaultState(): (s: State)
    ensures s.Start?
  {
    State.Start
  }

  /** The bot commands, recognised by their lowercase names. */
  datatype Command = Help | Start | Admin

  function CommandName(c: Command): string
  {
    match c
    case Help => "help"
    case Start => "start"
    case Admin => "admin"
  }

  function CommandFromName(name: string): Option<Command>
  {
    if name == "help" then Some(Command.Help)
    else if name == "start" then Some(Command.Start)
    else if name == "admin" then Some(Command.Admin)
    else None
  }

  /** The command names are lowercase, and exactly these three names are recognised:
      a name is recognised as a command iff it is that command's name. */
  lemma CommandNames(c: Command, name: string)
    ensures forall i :: 0 <= i < |CommandName(c)| ==> 'a' <= CommandName(c)[i] <= 'z'
    ensures CommandFromName(name) == Some(c) <==> name == CommandName(c)
  {
  }

  /** An incoming update: a message, with the command its text parses as (if
      any), or some other kind of update. */
  datatype Update = MessageUpdate(msg: Message, command: Option<Command>) | OtherUpdate

  /** What the endpoints learn from the bot: its token, its own user id as
      `get_me` reports it (`None` when that request fails), and whether a
      `send_message` request succeeds. */
  datatype BotContext = BotContext(token: string, me: Option<string>, sendOk: bool)

  /** The branch of `schema()` an update went to. */
  datatype Branch = CommandBranch(cmd: Command) | StartBranch | AdminBranch | ReaderBranch

  /** The outcome of one matching branch: which branch it was, what its
      endpoint did, and the dialogue state it wrote with `dialogue.update`, if any. */
  datatype Dispatched = Dispatched(branch: Branch, handled: Handled, transition: Option<State>)

  function CommandReply(c: Command): string
  {
    match c
    case Help => "no help for you"
    case Start => "starting, starting"
    case Admin => "you are not an admin"
  }

  /** The `command` endpoint: one fixed reply per command. */
  function CommandHandler(msg: Message, c: Command, ctx: BotContext): (h: Handled)
    ensures h.sent == Some(Reply(msg.chat, CommandReply(c)))
    ensures h.ok <==> ctx.sendOk
  {
    SendReply(msg, CommandReply(c), ctx.sendOk)
  }

  function StartText(text: string, id: string, token: string): string
  {
    "start(" + text + ")\nbot id: " + id + "\nbot token: " + token
  }

  /** The `start` endpoint: asks for the bot's own id first (a failure there
      ends it before anything is sent), then echoes the text back. */
  function StartHandler(msg: Message, ctx: BotContext): (h: Handled)
    ensures h.sent.Some? <==> ctx.me.Some?
    ensures h.sent.Some? ==>
      h.sent.value == Reply(msg.chat, StartText(msg.text.GetOr(""), ctx.me.value, ctx.token))
    ensures h.ok <==> ctx.me.Some? && ctx.sendOk
  {
    match ctx.me
    case None => Handled(None, false)
    case Some(id) => SendReply(msg, StartText(msg.text.GetOr(""), id, ctx.token), ctx.sendOk)
  }

  // The four branches of the message handler, in `schema()`'s order. Each
  // yields `None` when its guard rejects the message. No endpoint here calls
  // `dialogue.update`, so none asks for a transition.

  function CommandCase(msg: Message, command: Option<Command>, s: State, ctx: BotContext): Option<Dispatched>
  {
    match command
    case Some(c) => Some(Dispatched(CommandBranch(c), CommandHandler(msg, c, ctx), None))
    case None => None
  }

  function StartCase(msg: Message, s: State, ctx: BotContext): Option<Dispatched>
  {
    if s.Start? then Some(Dispatched(StartBranch, StartHandler(msg, ctx), None)) else None
  }

  function AdminCase(msg: Message, s: State, ctx: BotContext): Option<Dispatched>
  {
    match s
    case Admin(a) =>
      (match AdminHandler.Schema(a, msg, ctx.sendOk)
       case Some(h) => Some(Dispatched(AdminBranch, h, None))
       case None => None)
    case _ => None
  }

  function ReaderCase(msg: Message, s: State, ctx: BotContext): Option<Dispatched>
  {
    match s
    case Reader(r) =>
      (match ReaderHandler.Schema(r, msg, ctx.sendOk)
       case Some(h) => Some(Dispatched(ReaderBranch, h, None))
       case None => None)
    case _ => None
  }

  function Candidates(msg: Message, command: Option<Command>, s: State, ctx: BotContext): seq<Option<Dispatched>>
  {
    [CommandCase(msg, command, s, ctx), StartCase(msg, s, ctx), AdminCase(msg, s, ctx), ReaderCase(msg, s, ctx)]
  }

  /** The position of the first candidate that matched, or the length when none did. */
  function FirstMatch(cands: seq<Option<Dispatched>>): (k: nat)
    ensures k <= |cands|
    ensures k < |cands| ==> cands[k].Some?
    ensures forall j :: 0 <= j < k ==> cands[j].None?
    decreases |cands|
  {
    if cands == [] then 0
    else if cands[0].Some? then 0
    else 1 + FirstMatch(cands[1..])
  }

  /** How many candidates matched. */
  function MatchCount(cands: seq<Option<Dispatched>>): nat
    decreases |cands|
  {
    if cands == [] then 0
    else (if cands[0].Some? then 1 else 0) + MatchCount(cands[1..])
  }

  /** `schema()`: updates that are not messages reach no branch; a message goes
      to the first branch whose guard accepts it. `None` means the update is
      dropped. */
  function Dispatch(u: Update, s: State, ctx: BotContext): (d: Option<Dispatched>)
    ensures d.Some? ==> d.value.transition.None?
  {
    match u
    case OtherUpdate => None
    case MessageUpdate(msg, command) =>
      var cands := Candidates(msg, command, s, ctx);
      var k := FirstMatch(cands);
      if k < |cands| then cands[k] else None
  }

  /** A message that parses as a command goes to the command endpoint in every
      state, which replies with the command's fixed text to the message's chat
      and leaves the state alone. */
  lemma CommandFirst(msg: Message, c: Command, s: State, ctx: BotContext)
    ensures Dispatch(MessageUpdate(msg, Some(c)), s, ctx) ==
      Some(Dispatched(CommandBranch(c), Handled(Some(Reply(msg.chat, CommandReply(c))), ctx.sendOk), None))
  {
  }

  /** A message that is not a command goes by the state: to `start` in
      `Start`, to the admin sub-schema in `Admin(_)` and to the reader
      sub-schema in `Reader(_)`; each branch's endpoint sends its own reply to
      the message's chat. */
  lemma ByState(msg: Message, s: State, ctx: BotContext)
    ensures var d := Dispatch(MessageUpdate(msg, None), s, ctx);
      && d.Some?
      && d.value.transition.None?
      && match s
         case Start =>
           && d.value.branch == StartBranch
           && (ctx.me.None? ==> d.value.handled == Handled(None, false))
           && (ctx.me.Some? ==>
                 d.value.handled ==
                 Handled(Some(Reply(msg.chat, StartText(msg.text.GetOr(""), ctx.me.value, ctx.token))), ctx.sendOk))
         case Admin(_) =>
           d.value.branch == AdminBranch && d.value.handled == Handled(Some(Reply(msg.chat, "admin default")), ctx.sendOk)
         case Reader(_) =>
           d.value.branch == ReaderBranch && d.value.handled == Handled(Some(Reply(msg.chat, "reader")), ctx.sendOk)
  {
    var cands := Candidates(msg, None, s, ctx);
    assert cands[0].None?;
    match s
    case Start =>
      assert cands[1].Some?;
    case Admin(a) =>
      assert cands[1].None? && cands[2].Some?;
    case Reader(r) =>
      assert cands[1].None? && cands[2].None? && cands[3].Some?;
  }

  /** `/admin` from any chat in any state is refused by the command endpoint;
      it does not move the chat into the admin dialogue. */
  lemma AdminCommandRefused(msg: Message, s: State, ctx: BotContext)
    ensures CommandFromName("admin") == Some(Command.Admin)
    ensures var d := Dispatch(MessageUpdate(msg, CommandFromName("admin")), s, ctx);
      && d.Some?
      && d.value.branch == CommandBranch(Command.Admin)
      && d.value.handled.sent == Some(Reply(msg.chat, "you are not an admin"))
      && d.value.transition.None?
  {
    CommandNames(Command.Admin, "admin");
    CommandFirst(msg, Command.Admin, s, ctx);
  }

  /** Updates that are not messages reach no endpoint. */
  lemma OthersDropped(s: State, ctx: BotContext)
    ensures Dispatch(OtherUpdate, s, ctx).None?
  {
  }

  /** The three state branches are exhaustive and exclusive, so exactly one of
      them accepts any message; a command is accepted by the command branch
      as well, so for commands it is the order of the branches that decides. */
  lemma {:induction false} MatchCounts(msg: Message, command: Option<Command>, s: State, ctx: BotContext)
    ensures MatchCount(Candidates(msg, command, s, ctx)) == if command.Some? then 2 else 1
  {
    var cands := Candidates(msg, command, s, ctx);
    var c1, c2, c3 := cands[1..], cands[2..], cands[3..];
    assert c3[1..] == [] && c2[1..] == c3 && c1[1..] == c2 && cands[1..] == c1;
    assert MatchCount(c3) == if cands[3].Some? then 1 else 0;
    assert MatchCount(c2) == (if cands[2].Some? then 1 else 0) + MatchCount(c3);
    assert MatchCount(c1) == (if cands[1].Some? then 1 else 0) + MatchCount(c2);
    assert MatchCount(cands) == (if cands[0].Some? then 1 else 0) + MatchCount(c1);
  }

  /** The dialogue states of one bot's chats; a chat not in the map is in the default state. */
  type Store = map<ChatId, State>

  function StateOf(store: Store, chat: ChatId): State
  {
    if chat in store then store[chat] else DefaultState()
  }

  /** The store after the endpoint for `chat` ended in `d`: a state the
      endpoint wrote with `dialogue.update` is stored at once, whatever the
      endpoint does afterwards. */
  function Commit(store: Store, chat: ChatId, d: Option<Dispatched>): Store
  {
    match d
    case Some(Dispatched(_, _, Some(next))) => store[chat := next]
    case _ => store
  }

  /** The chats that sent the messages among `events`. */
  function ChatsOf(events: seq<Event>): set<ChatId>
    decreases |events|
  {
    if events == [] then {}
    else (if events[0].update.MessageUpdate? then {events[0].update.msg.chat} else {}) + ChatsOf(events[1..])
  }

  /** Two stores that agree outside `s` agree outside any larger set. */
  lemma AgreeOutside(a: Store, b: Store, s: set<ChatId>, t: set<ChatId>)
    requires a - s == b - s && s <= t
    ensures a - t == b - t
  {
    forall c | c in a - t
      ensures c in b - t && (a - t)[c] == (b - t)[c]
    {
      assert c in a - s;
    }
    forall c | c in b - t
      ensures c in a - t
    {
      assert c in b - s;
    }
  }

  /** One update as `dialogue::enter` handles it: look up the chat's state,
      dispatch, and keep any state the endpoint wrote. No endpoint here writes
      one, so the store never changes. */
  function Step(store: Store, u: Update, ctx: BotContext): (r: (Store, Option<Dispatched>))
    ensures u.OtherUpdate? ==> r == (store, None)
    ensures u.MessageUpdate? ==> r.1 == Dispatch(u, StateOf(store, u.msg.chat), ctx)
    ensures r.0 == store
  {
    match u
    case OtherUpdate => (store, Dispatch(u, DefaultState(), ctx))
    case MessageUpdate(msg, _) =>
      var d := Dispatch(u, StateOf(store, msg.chat), ctx);
      (Commit(store, msg.chat, d), d)
  }

  /** One update as it reaches a bot, with what the bot's requests return while handling it. */
  datatype Event = Event(update: Update, ctx: BotContext)

  /** A bot's updates handled one after another, in arrival order: the final
      store and what each update led to. */
  function Run(store: Store, events: seq<Event>): (r: (Store, seq<Option<Dispatched>>))
    ensures |r.1| == |events|
    ensures r.0 - ChatsOf(events) == store - ChatsOf(events)
    decreases |events|
  {
    if events == [] then (store, [])
    else
      var (next, d) := Step(store, events[0].update, events[0].ctx);
      var (final, ds) := Run(next, events[1..]);
      var chats := ChatsOf(events);
      AgreeOutside(final, next, ChatsOf(events[1..]), chats);
      var first: set<ChatId> := if events[0].update.MessageUpdate? then {events[0].update.msg.chat} else {};
      AgreeOutside(next, store, first, chats);
      (final, [d] + ds)
  }

  /** No endpoint changes the dialogue, so a run leaves the store as it was
      and produces one outcome per update. */
  lemma {:induction false} RunKeepsStore(store: Store, events: seq<Event>)
    ensures Run(store, events).0 == store
    ensures |Run(store, events).1| == |events|
    decreases |events|
  {
    if events != [] {
      RunKeepsStore(store, events[1..]);
    }
  }

  /** Starting from the default state, every chat stays in `Start`: every
      update goes to the command or the start endpoint or is dropped, and
      the admin and reader branches are never reached. */
  lemma {:induction false} NeverLeavesStart(events: seq<Event>)
    ensures Run(map[], events).0 == map[]
    ensures forall k :: 0 <= k < |Run(map[], events).1| ==>
      var d := Run(map[], events).1[k];
      d.Some? ==> d.value.branch.CommandBranch? || d.value.branch == StartBranch
    decreases |events|
  {
    if events != [] {
      NeverLeavesStart(events[1..]);
      var d := Step(map[], events[0].update, events[0].ctx).1;
      match events[0].update
      case OtherUpdate =>
      case MessageUpdate(msg, command) =>
        if command.Some? { CommandFirst(msg, command.value, State.Start, events[0].ctx); }
        else { ByState(msg, State.Start, events[0].ctx); }
    }
  }
}
