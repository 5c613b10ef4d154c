/**
 * The multi-bot webhook server of `src/main.rs`: deriving a bot's id and
 * callback URL from its token, the `BotServerBuilder` that records one route,
 * one stop token, one stop flag and one dispatcher task per registered bot,
 * `build`, the server's reaction to a serve error, and the registration loop
 * of `main`.
 *
 * The webhook listener library is outside the model: what it returns for one
 * bot (`Setup`) and whether a URL string parses (`urlParses`) are inputs.
 */
module Server {
  import opened Wrappers
  import Text

  /** The id of the bot a token belongs to: `token.split(':').next()`. The
      first piece of a split always exists, so this never fails. */
  function BotId(token: string): (id: string)
    ensures id <= token
    ensures ':' !in id
    ensures |id| == |token| || token[|id|] == ':'
  {
    Text.SplitFirst(token, ':');
    Text.Split(token, ':')[0]
  }

  /** The callback URL of a bot: `format!("{}/bot/{}", host, bot_id)`. */
  function CallbackUrl(host: string, botId: string): (url: string)
    ensures |url| == |host| + 5 + |botId|
    ensures url[..|host|] == host && url[|host|..|host| + 5] == "/bot/" && url[|host| + 5..] == botId
  {
    host + "/bot/" + botId
  }

  /** Different bots of one server get different callback URLs. */
  lemma CallbackUrlInjective(host: string, a: string, b: string)
    requires CallbackUrl(host, a) == CallbackUrl(host, b)
    ensures a == b
  {
    var n := |host| + 5;
    assert CallbackUrl(host, a)[n..] == a;
    assert CallbackUrl(host, b)[n..] == b;
  }

  /** The route table, reduced to the callback URLs it serves. */
  type Router = set<string>

  /** `router.merge(other)`: the merged table serves the routes of both. */
  function Merge(fragment: Router, router: Router): (r: Router)
    ensures router <= r && fragment <= r
  {
    fragment + router
  }

  /** The routes of the bots registered with `tokens`, merged in order. */
  function RoutesOf(host: string, tokens: seq<string>): (r: Router)
    ensures forall i :: 0 <= i < |tokens| ==> CallbackUrl(host, BotId(tokens[i])) in r
    decreases |tokens|
  {
    if tokens == [] then {}
    else Merge({CallbackUrl(host, BotId(tokens[|tokens| - 1]))}, RoutesOf(host, tokens[..|tokens| - 1]))
  }

  /** Every route in the table belongs to one of the registered bots. */
  lemma {:induction false} RouteOwner(host: string, tokens: seq<string>, u: string) returns (i: nat)
    requires u in RoutesOf(host, tokens)
    ensures i < |tokens| && u == CallbackUrl(host, BotId(tokens[i]))
    decreases |tokens|
  {
    var n := |tokens| - 1;
    if u == CallbackUrl(host, BotId(tokens[n])) {
      i := n;
    } else {
      i := RouteOwner(host, tokens[..n], u);
    }
  }

  ghost predicate DistinctIds(tokens: seq<string>)
  {
    forall i, j :: 0 <= i < j < |tokens| ==> BotId(tokens[i]) != BotId(tokens[j])
  }

  /** N registered bots give at most N routes, and exactly N iff their ids are
      pairwise distinct: a second bot with the same id adds no route. */
  lemma {:induction false} RoutesCount(host: string, tokens: seq<string>)
    ensures |RoutesOf(host, tokens)| <= |tokens|
    ensures |RoutesOf(host, tokens)| == |tokens| <==> DistinctIds(tokens)
    decreases |tokens|
  {
    if tokens != [] {
      var init, last := tokens[..|tokens| - 1], tokens[|tokens| - 1];
      RoutesCount(host, init);
      var u := CallbackUrl(host, BotId(last));
      var before := RoutesOf(host, init);
      assert RoutesOf(host, tokens) == before + {u};
      if u in before {
        var i := RouteOwner(host, init, u);
        CallbackUrlInjective(host, BotId(init[i]), BotId(last));
        assert !DistinctIds(tokens) by {
          assert BotId(tokens[i]) == BotId(tokens[|tokens| - 1]);
        }
      } else {
        assert |RoutesOf(host, tokens)| == |before| + 1;
        forall i | 0 <= i < |init|
          ensures BotId(init[i]) != BotId(last)
        {
          assert CallbackUrl(host, BotId(init[i])) in before;
        }
        assert DistinctIds(tokens) <==> DistinctIds(init) by {
          if DistinctIds(init) {
            forall i, j | 0 <= i < j < |tokens|
              ensures BotId(tokens[i]) != BotId(tokens[j])
            {
              if j < |init| {
                assert tokens[i] == init[i] && tokens[j] == init[j];
              } else {
                assert tokens[i] == init[i] && tokens[j] == last;
              }
            }
          }
          if DistinctIds(tokens) {
            forall i, j | 0 <= i < j < |init|
              ensures BotId(init[i]) != BotId(init[j])
            {
              assert tokens[i] == init[i] && tokens[j] == init[j];
            }
          }
        }
      }
    }
  }

  /** The socket address the HTTP server binds to. */
  datatype SocketAddr = SocketAddr(ip: seq<nat>, port: nat)

  /** The stop token of one bot's webhook listener: stopping it is a one-shot,
      idempotent signal that ends the listener's stream of updates. */
  class StopToken {
    var stopped: bool

    constructor ()
      ensures !stopped
    {
      stopped := false;
    }

    method Stop()
      modifies this
      ensures stopped
    {
      stopped := true;
    }
  }

  /** The listener's stream of updates, and the future that resolves once it is stopped. */
  datatype Listener = Listener(id: nat)
  datatype StopFlag = StopFlag(id: nat)

  /** What the webhook listener factory hands back for one bot. */
  datatype Webhook = Webhook(listener: Listener, stopToken: StopToken, stopFlag: StopFlag)

  /** The outcome of setting up one bot's webhook listener. */
  datatype Setup<E> = Ready(hook: Webhook) | SetupFailed(error: E)

  /** The future pushed onto `bots_listeners`: the bot built from `token`
      running its dispatcher over `listener`. */
  datatype DispatchTask = DispatchTask(token: string, listener: Listener)

  /** What `add_bot` does: `Ok(())`, `Err((bot_id, e))` when the listener
      could not be set up, or a panic at the `unwrap` when the callback URL
      does not parse (which aborts rather than returns). */
  datatype AddBotResult<E> = Ok | Err(botId: string, error: E) | Panic(url: string)

  /** The outcome `add_bot` reaches for `token`. It depends on the host, the
      token and that bot's own listener setup only, never on other bots. */
  function Registration<E>(host: string, token: string, urlParses: string -> bool, setup: Setup<E>): (r: AddBotResult<E>)
    ensures r.Panic? <==> !urlParses(CallbackUrl(host, BotId(token)))
    ensures r.Panic? ==> r.url == CallbackUrl(host, BotId(token))
    ensures r.Ok? <==> urlParses(CallbackUrl(host, BotId(token))) && setup.Ready?
    ensures r.Err? ==> setup.SetupFailed? && r == Err(BotId(token), setup.error)
  {
    var url := CallbackUrl(host, BotId(token));
    if !urlParses(url) then Panic(url)
    else match setup
      case SetupFailed(e) => Err(BotId(token), e)
      case Ready(_) => Ok
  }

  /** The tokens of the bots behind the recorded dispatcher tasks, in order. */
  function TokensOf(tasks: seq<DispatchTask>): (tokens: seq<string>)
    ensures |tokens| == |tasks|
    decreases |tasks|
  {
    if tasks == [] then []
    else TokensOf(tasks[..|tasks| - 1]) + [tasks[|tasks| - 1].token]
  }

  /** The i-th token is the token of the i-th recorded dispatcher task. */
  lemma {:induction false} TokenAt(tasks: seq<DispatchTask>, i: nat)
    requires i < |tasks|
    ensures TokensOf(tasks)[i] == tasks[i].token
    decreases |tasks|
  {
    var n := |tasks| - 1;
    if i < n {
      TokenAt(tasks[..n], i);
    }
  }

  /** `BotServerBuilder`: accumulates the bots of one server before it is built. */
  class BotServerBuilder {
    var host: string
    var addr: SocketAddr
    var router: Router
    var stopTokens: seq<StopToken>
    var stopFlags: seq<StopFlag>
    var botsListeners: seq<DispatchTask>

    /** The three lists have one entry per registered bot, and the router
        serves exactly the callback URLs of the bots behind the recorded
        dispatcher tasks. */
    ghost predicate Valid()
      reads this
    {
      && |stopTokens| == |stopFlags| == |botsListeners|
      && router == RoutesOf(host, TokensOf(botsListeners))
    }

    /** `BotServerBuilder::new`: no routes and no bots yet. */
    constructor (host: string, addr: SocketAddr)
      ensures Valid()
      ensures this.host == host && this.addr == addr
      ensures router == {} && stopTokens == [] && stopFlags == [] && botsListeners == []
    {
      this.host := host;
      this.addr := addr;
      router := {};
      stopTokens, stopFlags, botsListeners := [], [], [];
    }

    /** `add_bot`: derives the bot id and callback URL, then records the bot
        only if its listener was set up; on any failure nothing changes. */
    method AddBot<E>(token: string, urlParses: string -> bool, setup: Setup<E>) returns (r: AddBotResult<E>)
      requires Valid()
      modifies this
      ensures Valid()
      ensures r == Registration(old(host), token, urlParses, setup)
      ensures host == old(host) && addr == old(addr)
      ensures !r.Ok? ==> unchanged(this)
      ensures r.Ok? ==>
        && router == Merge({CallbackUrl(host, BotId(token))}, old(router))
        && stopTokens == old(stopTokens) + [setup.hook.stopToken]
        && stopFlags == old(stopFlags) + [setup.hook.stopFlag]
        && botsListeners == old(botsListeners) + [DispatchTask(token, setup.hook.listener)]
    {
      var botId := BotId(token);
      var url := CallbackUrl(host, botId);
      if !urlParses(url) {
        return Panic(url);
      }
      match setup
      case SetupFailed(e) =>
        return Err(botId, e);
      case Ready(hook) =>
        router := Merge({url}, router);
        stopTokens := stopTokens + [hook.stopToken];
        stopFlags := stopFlags + [hook.stopFlag];
        ghost var before := botsListeners;
        botsListeners := botsListeners + [DispatchTask(token, hook.listener)];
        assert botsListeners[..|before|] == before;
        assert TokensOf(botsListeners)[..|before|] == TokensOf(before);
        return Ok;
    }

    /** `build`: the server task gets the address, the router and every stop
        token; every recorded dispatcher becomes exactly one spawned task. */
    method Build() returns (server: ServerTask, tasks: seq<BotTask>)
      ensures server == ServerTask(addr, router, stopTokens)
      ensures |tasks| == |botsListeners|
      ensures forall i :: 0 <= i < |tasks| ==> tasks[i] == Spawned(botsListeners[i])
    {
      server := ServerTask(addr, router, stopTokens);
      tasks := [];
      for i := 0 to |botsListeners|
        invariant |tasks| == i
        invariant forall j :: 0 <= j < i ==> tasks[j] == Spawned(botsListeners[j])
      {
        tasks := tasks + [Spawned(botsListeners[i])];
      }
    }
  }

  /** The HTTP server task: it serves the router at the address and holds the stop tokens. */
  datatype ServerTask = ServerTask(addr: SocketAddr, router: Router, stopTokens: seq<StopToken>)

  /** One task of the join set `build` returns. */
  datatype BotTask = Spawned(task: DispatchTask)

  datatype ServeOutcome = Finished | Panicked(message: string)

  /** The server task once serving ends: `serveError` is the Debug text of
      the error serving ended with, if any. On an error every stop token is
      stopped before the task panics with `expect`'s message followed by that
      text; otherwise no token is touched. */
  method Serve(server: ServerTask, serveError: Option<string>) returns (outcome: ServeOutcome)
    modifies set t | t in server.stopTokens
    ensures serveError.None? ==> outcome == Finished && unchanged(set t | t in server.stopTokens)
    ensures serveError.Some? ==> outcome == Panicked("Axum server error: " + serveError.value)
    ensures serveError.Some? ==> forall t :: t in server.stopTokens ==> t.stopped
  {
    if serveError.None? {
      return Finished;
    }
    for i := 0 to |server.stopTokens|
      invariant forall j :: 0 <= j < i ==> server.stopTokens[j].stopped
    {
      server.stopTokens[i].Stop();
    }
    return Panicked("Axum server error: " + serveError.value);
  }

  /** What `main` prints for a bot whose listener could not be set up. */
  function NotStartedLine(botId: string, error: string): (line: string)
    ensures |line| == 18 + |botId| + |error|
    ensures line[..4] == "bot " && line[4..4 + |botId|] == botId
    ensures line[4 + |botId|..18 + |botId|] == " not started: " && line[18 + |botId|..] == error
  {
    "bot " + botId + " not started: " + error
  }

  /** The outcome `add_bot` reaches for each token, the i-th token using the
      i-th listener setup. */
  function Outcomes<E>(host: string, tokens: seq<string>, urlParses: string -> bool, setups: nat -> Setup<E>): (outs: seq<AddBotResult<E>>)
    ensures |outs| == |tokens|
    decreases |tokens|
  {
    if tokens == [] then []
    else
      var n := |tokens| - 1;
      Outcomes(host, tokens[..n], urlParses, setups) + [Registration(host, tokens[n], urlParses, setups(n))]
  }

  lemma {:induction false} OutcomeAt<E>(host: string, tokens: seq<string>, urlParses: string -> bool, setups: nat -> Setup<E>, i: nat)
    requires i < |tokens|
    ensures Outcomes(host, tokens, urlParses, setups)[i] == Registration(host, tokens[i], urlParses, setups(i))
    decreases |tokens|
  {
    var n := |tokens| - 1;
    if i < n {
      OutcomeAt(host, tokens[..n], urlParses, setups, i);
    }
  }

  /** No outcome in `outs` is a panic. */
  predicate NoPanic<E>(outs: seq<AddBotResult<E>>)
    decreases |outs|
  {
    outs == [] || (NoPanic(outs[..|outs| - 1]) && !outs[|outs| - 1].Panic?)
  }

  /** `NoPanic` says what its name says, entry by entry. */
  lemma {:induction false} NoPanicAt<E>(outs: seq<AddBotResult<E>>)
    ensures NoPanic(outs) <==> forall j :: 0 <= j < |outs| ==> !outs[j].Panic?
    decreases |outs|
  {
    if outs != [] {
      var init := outs[..|outs| - 1];
      NoPanicAt(init);
      assert forall j :: 0 <= j < |init| ==> init[j] == outs[j];
    }
  }

  /** The lines `main` prints: one per failed registration, in order. */
  function NotStartedLog<E>(outs: seq<AddBotResult<E>>, show: E -> string): seq<string>
    decreases |outs|
  {
    if outs == [] then []
    else
      var last := outs[|outs| - 1];
      NotStartedLog(outs[..|outs| - 1], show) +
        (if last.Err? then [NotStartedLine(last.botId, show(last.error))] else [])
  }

  /** The tokens whose registration succeeded, in order. */
  function Registered<E>(tokens: seq<string>, outs: seq<AddBotResult<E>>): seq<string>
    requires |tokens| == |outs|
    decreases |outs|
  {
    if outs == [] then []
    else
      var n := |outs| - 1;
      Registered(tokens[..n], outs[..n]) + (if outs[n].Ok? then [tokens[n]] else [])
  }

  /** A failed registration does not stop the ones after it: while no
      callback URL fails to parse, no token panics, so every token is tried,
      each with an outcome of its own, and it is registered iff its own
      listener was set up. */
  lemma FailureIsolation<E>(host: string, tokens: seq<string>, urlParses: string -> bool, setups: nat -> Setup<E>)
    requires forall i :: 0 <= i < |tokens| ==> urlParses(CallbackUrl(host, BotId(tokens[i])))
    ensures forall i :: 0 <= i < |tokens| ==>
      var out := Outcomes(host, tokens, urlParses, setups)[i];
      && !out.Panic?
      && (out.Ok? <==> setups(i).Ready?)
      && (out.Err? ==> out == Err(BotId(tokens[i]), setups(i).error))
  {
    forall i | 0 <= i < |tokens|
      ensures Outcomes(host, tokens, urlParses, setups)[i] == Registration(host, tokens[i], urlParses, setups(i))
    {
      OutcomeAt(host, tokens, urlParses, setups, i);
    }
  }

  lemma LogStep<E>(outs: seq<AddBotResult<E>>, i: nat, show: E -> string)
    requires i < |outs|
    ensures NoPanic(outs[..i + 1]) <==> NoPanic(outs[..i]) && !outs[i].Panic?
    ensures NotStartedLog(outs[..i + 1], show) ==
      NotStartedLog(outs[..i], show) + (if outs[i].Err? then [NotStartedLine(outs[i].botId, show(outs[i].error))] else [])
  {
    assert outs[..i + 1][..i] == outs[..i];
  }

  lemma RegisteredStep<E>(tokens: seq<string>, outs: seq<AddBotResult<E>>, i: nat)
    requires |tokens| == |outs| && i < |outs|
    ensures Registered(tokens[..i + 1], outs[..i + 1]) ==
      Registered(tokens[..i], outs[..i]) + (if outs[i].Ok? then [tokens[i]] else [])
  {
    assert outs[..i + 1][..i] == outs[..i];
    assert tokens[..i + 1][..i] == tokens[..i];
  }

  /** One turn of the loop of `main`: `add_bot` for one token, and the line
      printed when it returns an error. */
  method RegisterToken<E>(builder: BotServerBuilder, token: string, urlParses: string -> bool,
                          setup: Setup<E>, show: E -> string, log: seq<string>)
    returns (r: AddBotResult<E>, log': seq<string>)
    requires builder.Valid()
    modifies builder
    ensures builder.Valid()
    ensures builder.host == old(builder.host) && builder.addr == old(builder.addr)
    ensures r == Registration(old(builder.host), token, urlParses, setup)
    ensures log' == log + (if r.Err? then [NotStartedLine(r.botId, show(r.error))] else [])
    ensures TokensOf(builder.botsListeners) == TokensOf(old(builder.botsListeners)) + (if r.Ok? then [token] else [])
  {
    r := builder.AddBot(token, urlParses, setup);
    log' := log;
    if r.Err? {
      log' := log + [NotStartedLine(r.botId, show(r.error))];
    }
  }

  /** Where the loop of `main` stands after the first `k` of the tokens
      `parts`, whose outcomes are `outs`: none of them panicked, `log` holds
      the lines printed for them, and `registered` is `before` followed by
      the tokens that succeeded. */
  ghost predicate Progress<E>(parts: seq<string>, outs: seq<AddBotResult<E>>, k: nat, show: E -> string,
                              log: seq<string>, before: seq<string>, registered: seq<string>)
    requires |parts| == |outs|
  {
    && k <= |parts|
    && NoPanic(outs[..k])
    && log == NotStartedLog(outs[..k], show)
    && registered == before + Registered(parts[..k], outs[..k])
  }

  /** A token that does not panic moves the loop one step on. */
  lemma ProgressStep<E>(parts: seq<string>, outs: seq<AddBotResult<E>>, k: nat, show: E -> string,
                        log: seq<string>, before: seq<string>, registered: seq<string>)
    requires |parts| == |outs| && k < |parts| && !outs[k].Panic?
    requires Progress(parts, outs, k, show, log, before, registered)
    ensures Progress(parts, outs, k + 1, show,
                     log + (if outs[k].Err? then [NotStartedLine(outs[k].botId, show(outs[k].error))] else []),
                     before, registered + (if outs[k].Ok? then [parts[k]] else []))
  {
    LogStep(outs, k, show);
    RegisteredStep(parts, outs, k);
    ghost var added := if outs[k].Ok? then [parts[k]] else [];
    assert before + Registered(parts[..k], outs[..k]) + added == before + (Registered(parts[..k], outs[..k]) + added);
  }

  /** The loop of `main` over the `;`-separated tokens: `add_bot` once per
      token, in order; a failure is printed and the loop goes on with the next
      token; a panic (a callback URL that does not parse) ends the process
      there. `show` stands for the listener error's `Display`; `processed`
      counts the tokens handled, the panicking one excluded. */
  method RegisterAll<E>(builder: BotServerBuilder, botTokens: string, urlParses: string -> bool,
                        setups: nat -> Setup<E>, show: E -> string)
    returns (log: seq<string>, processed: nat, aborted: Option<string>)
    requires builder.Valid()
    modifies builder
    ensures builder.Valid()
    ensures builder.host == old(builder.host) && builder.addr == old(builder.addr)
    ensures var parts := Text.Split(botTokens, ';');
      var outs := Outcomes(old(builder.host), parts, urlParses, setups);
      && processed <= |parts|
      && NoPanic(outs[..processed])
      && (aborted.Some? <==> processed < |parts|)
      && (aborted.Some? ==> outs[processed].Panic? && aborted.value == outs[processed].url)
      && log == NotStartedLog(outs[..processed], show)
      && TokensOf(builder.botsListeners) == TokensOf(old(builder.botsListeners)) + Registered(parts[..processed], outs[..processed])
  {
    var parts := Text.Split(botTokens, ';');
    ghost var outs := Outcomes(builder.host, parts, urlParses, setups);
    ghost var before := TokensOf(builder.botsListeners);
    log, processed, aborted := [], 0, None;
    while processed < |parts|
      invariant builder.Valid()
      invariant builder.host == old(builder.host) && builder.addr == old(builder.addr)
      invariant Progress(parts, outs, processed, show, log, before, TokensOf(builder.botsListeners))
    {
      var r;
      ghost var registered, logged := TokensOf(builder.botsListeners), log;
      r, log := RegisterToken(builder, parts[processed], urlParses, setups(processed), show, log);
      OutcomeAt(old(builder.host), parts, urlParses, setups, processed);
      if r.Panic? {
        aborted := Some(r.url);
        return;
      }
      ProgressStep(parts, outs, processed, show, logged, before, registered);
      processed := processed + 1;
    }
    assert outs[..processed] == outs && parts[..processed] == parts;
  }

  /** A token of the shape `<id>:<secret>` names the bot by its id. */
  lemma BotIdOfToken(id: string, secret: string)
    requires ':' !in id
    ensures BotId(id + [':'] + secret) == id
  {
    Text.SplitAfterPiece(id, secret, ':');
  }

  /** Two tokens in `BOT_TOKENS`: the variable is cut into the two tokens. */
  lemma TwoTokens(t1: string, t2: string)
    requires ';' !in t1 && ';' !in t2
    ensures Text.Split(t1 + [';'] + t2, ';') == [t1, t2]
  {
    Text.SplitAfterPiece(t1, t2, ';');
    Text.SplitNoSeparator(t2, ';');
  }

  /** Two registered bots: the router holds their two callback URLs and
      nothing else. */
  lemma TwoRoutes(host: string, t1: string, t2: string)
    ensures RoutesOf(host, [t1, t2]) == {CallbackUrl(host, BotId(t1)), CallbackUrl(host, BotId(t2))}
  {
    var tokens := [t1, t2];
    assert tokens[..1] == [t1];
    assert tokens[..1][..0] == [];
    assert RoutesOf(host, [t1]) == {CallbackUrl(host, BotId(t1))};
  }

  /** A client of the builder: two bots registered and the server built; a
      failing server stops both listeners. */
  method TwoBotsClient(host: string, addr: SocketAddr, t1: string, t2: string)
  {
    var builder := new BotServerBuilder(host, addr);
    var s1 := new StopToken();
    var s2 := new StopToken();
    var parses := (url: string) => true;
    var r1 := builder.AddBot(t1, parses, Setup<string>.Ready(Webhook(Listener(1), s1, StopFlag(1))));
    var r2 := builder.AddBot(t2, parses, Setup<string>.Ready(Webhook(Listener(2), s2, StopFlag(2))));
    assert r1 == Ok && r2 == Ok;
    assert builder.stopTokens == [s1, s2];
    assert builder.router == {CallbackUrl(host, BotId(t1)), CallbackUrl(host, BotId(t2))};
    var server, tasks := builder.Build();
    assert |tasks| == 2 && tasks[1] == Spawned(DispatchTask(t2, Listener(2)));
    var serveError := "connection error while serving";
    var outcome := Serve(server, Some(serveError));
    assert outcome == Panicked("Axum server error: " + serveError);
    assert s1.stopped && s2.stopped;
  }
}
