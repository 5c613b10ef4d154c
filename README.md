# Multi-bot webhook server, modelled in Dafny

The program runs several Telegram bots behind one HTTP server. `BOT_TOKENS`
holds `;`-separated bot tokens. For each token, `main` asks a
`BotServerBuilder` to register the bot:

- the bot id is the token's prefix up to the first `:`;
- the bot's webhook callback URL is `<BOT_HOST>/bot/<id>`;
- a webhook listener is set up for that URL, and its route fragment is
  merged into the shared router;
- the listener's stop token and stop flag are recorded, together with a
  dispatcher future that runs the bot's dialogue over the listener.

A bot whose listener cannot be set up is reported with
`bot <id> not started: <error>` and skipped. `build` hands the router, the
address and every stop token to one server task, and spawns every dispatcher
into a join set. If the running server returns an error, the server task
stops every listener and then panics. A failure to bind the address panics
earlier and stops no listener.

Every bot runs the same dialogue:

- a command (`/help`, `/start`, `/admin`) gets a fixed reply in every state;
- any other message goes by the chat's dialogue state: `Start` echoes the
  text with the bot's id and token, `Admin` replies "admin default" and
  `Reader` replies "reader";
- no endpoint ever changes the dialogue state.

`src/error.rs` defines `BotError` and `AddBotError` with their `Display`
texts.

Modules, one per source file plus three helpers:

- `Wrappers` (`Option`) and `Text` (Rust's `str::split` and the matching
  join, with round-trip lemmas);
- `Errors` for `src/error.rs`;
- `Messages` (a helper) holds what the handlers see of the chat library: a message,
  the one reply request, and what an endpoint returns;
- `AdminHandler` and `ReaderHandler` for `src/handlers/admin.rs` and
  `src/handlers/reader.rs`;
- `States` for `src/handlers/states.rs`;
- `Server` for `src/main.rs`.

How the pieces are modelled:

- `BotServerBuilder` is a class whose methods update its fields, as the Rust
  struct's `&mut self` methods do. Its invariant `Valid` ties the router to
  the recorded dispatcher tasks: the router holds exactly the callback URLs
  of the registered bots.
- The router is the set of callback URLs it serves, and `merge` is union.
- Whether a URL parses is a parameter (`urlParses`). So is the outcome of
  the webhook listener setup (`Setup`), and so is whether the server's
  `serve` fails.
- A URL that does not parse is a `Panic` outcome: the `unwrap` in `add_bot`
  aborts the process rather than returning an error.
- `RegisterAll` is the loop of `main`. It stops at a panic and otherwise
  tries every token.
- `FailureIsolation` states that one bot's failure never affects another
  bot's registration.

Where the code does less than its names suggest, the model follows the code:

- Registration never fails on the bot id. Rust's `split(':')` always yields a
  first piece, so the `expect("wrong bot token format")` cannot fire, and a
  token without `:` is its own id (`Server.BotId`).
- A callback URL that does not parse makes `add_bot` panic. It is not
  returned as an error, so `AddBotError::UrlParse` is never built.
- `add_bot` returns its listener error as a plain `(bot_id, error)` pair, not
  as an `AddBotError`. `src/error.rs` is not used by `src/main.rs`, which
  declares only `mod handlers`, so `Errors` is modelled on its own.

## Model

| member | source | states |
|---|---|---|
| Text.Split | src/main.rs:32 | splitting always yields at least one piece, and no piece contains the separator |
| Text.JoinOfSplit | src/main.rs:32 | joining the pieces of a split with the separator gives back the original text, so splitting loses nothing |
| Text.SplitOfJoin | src/main.rs:32 | splitting a join of separator-free pieces gives back exactly those pieces |
| Text.SplitNoSeparator | src/main.rs:93-95 | a text without the separator splits into itself alone |
| Text.SplitAfterPiece | src/main.rs:93-95 | a separator-free piece followed by the separator and a rest splits into that piece, then the pieces of the rest |
| Text.SplitFirst | src/main.rs:93-96 | the first piece is a prefix of the text, and it ends at the text's end or at the first separator |
| Errors.NewBotError | src/error.rs:13-18 | `BotError::new` stores the bot id and the inner error as given |
| Errors.FromPair | src/error.rs:21-25 | converting an `(id, error)` pair gives the `BotError` holding that id and that error |
| Errors.BotErrorText | src/error.rs:27-31 | renders `bot <id> error: <inner>`: the four parts in that order, and nothing else |
| Errors.BotErrorTextRoundTrip | src/error.rs:27-31 | the text `bot <id> error: <inner>` can be read back into the id and the inner error's text when the id has no space |
| Errors.AddBotErrorText | src/error.rs:42-53 | an `IdParse` text is `failed to parse bot id in token: ` followed by the token, and only `IdParse` texts start that way; `UrlParse` and `Listener` render as the wrapped `BotError` |
| Errors.AddBotErrorTextRoundTrip | src/error.rs:42-53 | each `AddBotError` text reads back: `IdParse` gives its token; `UrlParse` and `Listener` give the wrapped bot id and cause, and cannot be told apart from each other |
| Messages.SendReply | src/handlers/admin.rs:11 | an endpoint's `send_message` targets the message's own chat with the given text, and the endpoint succeeds iff the request does |
| AdminHandler.OnlyAdminState | src/handlers/admin.rs:4-8 | the admin sub-state has one value, the default |
| AdminHandler.Admin | src/handlers/admin.rs:10-13 | the `admin` endpoint sends "admin default" to the message's chat and succeeds iff the send does |
| AdminHandler.Schema | src/handlers/admin.rs:10-17 | the admin sub-schema handles every message, in every sub-state, by replying "admin default" to the message's chat; it succeeds iff the send does |
| ReaderHandler.OnlyReaderState | src/handlers/reader.rs:5-9 | the reader sub-state has one value, the default |
| ReaderHandler.Reader | src/handlers/reader.rs:11-14 | the `reader` endpoint sends "reader" to the message's chat and succeeds iff the send does |
| ReaderHandler.Schema | src/handlers/reader.rs:11-18 | the reader sub-schema handles every message, in every sub-state, by replying "reader" to the message's chat; it succeeds iff the send does |
| States.DefaultState | src/handlers/states.rs:15-18 | a chat never seen before is in `Start` |
| States.CommandNames | src/handlers/states.rs:23-32 | command names are lowercase, and a name is recognised as a command iff it is that command's name |
| States.StartHandler | src/handlers/states.rs:34-46 | `start` sends a reply iff `get_me` succeeds; the reply goes to the message's chat and echoes its text (empty when it has none) with the bot's id and token; it succeeds iff `get_me` and the send both do |
| States.CommandHandler | src/handlers/states.rs:48-57 | `command` sends the command's fixed reply to the message's chat and succeeds iff the send does |
| States.FirstMatch | src/handlers/states.rs:65-69 | the chosen branch is the first that accepts the message; every earlier branch rejected it |
| States.Dispatch | src/handlers/states.rs:59-72 | a dispatched update never asks for a state transition |
| States.CommandFirst | src/handlers/states.rs:48-66 | a command goes to the command endpoint in every state, and the reply is the command's fixed text sent to the message's chat |
| States.ByState | src/handlers/states.rs:34-69 | a message that is not a command goes to `start` in `Start`, to the admin sub-schema in `Admin`, to the reader sub-schema in `Reader`, each with its own reply; `start` sends nothing when `get_me` fails and otherwise echoes the text with the bot's id and token |
| States.AdminCommandRefused | src/handlers/states.rs:30-66 | `/admin` is answered "you are not an admin" in every state and does not enter the admin dialogue |
| States.OthersDropped | src/handlers/states.rs:65 | updates that are not messages reach no endpoint |
| States.MatchCounts | src/handlers/states.rs:65-69 | a command is accepted by two branches (the command branch and the state's branch), and any other message by exactly one; first-match-wins decides which runs |
| States.Step | src/handlers/states.rs:71 | `dialogue::enter` for one update: a message is dispatched in its chat's stored state (`Start` for a chat not in the store); a state the endpoint wrote with `dialogue.update` is stored at once; no endpoint writes one, so the store never changes; other updates reach nothing |
| States.Run | src/handlers/states.rs:71 | a bot's updates handled in arrival order give one outcome per update, and the stored state of every chat that sent no message is untouched |
| States.RunKeepsStore | src/handlers/states.rs:34-72 | handling any sequence of updates leaves every chat's dialogue state as it was, with one outcome per update |
| States.NeverLeavesStart | src/handlers/states.rs:15-71 | from the default state, every chat stays in `Start`: only the command and start endpoints are ever reached, never the admin or reader branches |
| Server.BotId | src/main.rs:93-97 | the bot id is a prefix of the token without `:`, ending at the token's end or at its first `:` |
| Server.BotIdOfToken | src/main.rs:93-97 | a token `<id>:<secret>` with a `:`-free id names the bot `<id>` |
| Server.CallbackUrl | src/main.rs:98 | the callback URL is the host, then `/bot/`, then the bot id, and nothing else |
| Server.CallbackUrlInjective | src/main.rs:98 | two bots of one host with different ids get different callback URLs |
| Server.Merge | src/main.rs:105 | merging a bot's route fragment keeps every route already in the router and adds the fragment's |
| Server.RoutesOf | src/main.rs:98-105 | the router built from a list of tokens serves the callback URL of every one of them |
| Server.RouteOwner | src/main.rs:98-105 | every route in the router is the callback URL of some registered token |
| Server.RoutesCount | src/main.rs:98-105 | the router has at most one route per token, and exactly one per token iff the bot ids are distinct |
| Server.StopToken.constructor | src/main.rs:107 | a listener's stop token starts out not stopped |
| Server.StopToken.Stop | src/main.rs:140 | after `stop` the token is stopped |
| Server.Registration | src/main.rs:92-103 | `add_bot` panics iff the callback URL does not parse, at that URL; it succeeds iff the URL parses and the listener was set up; otherwise it returns the bot id with the listener's own error |
| Server.TokensOf | src/main.rs:111-121 | one token per recorded dispatcher task |
| Server.TokenAt | src/main.rs:111-121 | the i-th token is the token of the bot behind the i-th recorded dispatcher task |
| Server.BotServerBuilder.constructor | src/main.rs:72-81 | a new builder keeps the host and address, has an empty router and no bots, and satisfies the invariant |
| Server.BotServerBuilder.AddBot | src/main.rs:83-123 | the outcome is `Panic` for an unparsable callback URL, `Err((id, e))` for a failed listener setup, and `Ok` otherwise; on failure nothing changes; on success the bot's route is merged into the router and its stop token, stop flag and dispatcher are appended; the invariant is kept |
| Server.BotServerBuilder.Build | src/main.rs:125-152 | the server task gets the address, the router and every stop token; every recorded dispatcher becomes exactly one spawned task, in order |
| Server.Serve | src/main.rs:134-144 | a serve error stops every listener's stop token and then panics with "Axum server error: " followed by the error's Debug text; a clean finish touches no token |
| Server.NotStartedLine | src/main.rs:40 | the printed line is `bot <id> not started: <error>`: the four parts in that order, and nothing else |
| Server.Outcomes | src/main.rs:32-42 | the loop of `main` reaches one outcome per token |
| Server.OutcomeAt | src/main.rs:32-42 | the outcome for the i-th token is that token's own registration |
| Server.FailureIsolation | src/main.rs:32-42 | while every callback URL parses, no token panics; each token is registered iff its own listener was set up; a failure is reported with that token's id and its own error |
| Server.RegisterToken | src/main.rs:33-41 | one turn of the loop: `add_bot` for the token, plus a `bot <id> not started: <error>` line exactly when it returned an error; the token joins the registered bots iff it succeeded |
| Server.ProgressStep | src/main.rs:32-42 | a token that does not panic moves the loop on by one: a log line is added iff its registration failed, and it joins the registered bots iff it succeeded |
| Server.RegisterAll | src/main.rs:32-42 | tokens are handled in order until the first panic, which aborts at that token's URL; the log holds one line per failed token in order; the registered bots are exactly the tokens that succeeded, in order |
| Server.TwoTokens | src/main.rs:32 | `BOT_TOKENS` holding two tokens is cut into exactly those two |
| Server.TwoRoutes | src/main.rs:98-105 | two registered bots give a router holding their two callback URLs and nothing else |

## Left out

- Reading `BOT_TOKENS`, `BOT_HOST` and `PORT` from the environment, `dotenv`, and parsing the port: these are process I/O. The tokens and host are parameters, and the address is a value.
- Binding the socket and serving HTTP (`axum::Server`): the model keeps only whether serving ends in an error (a parameter of `Server.Serve`).
- Server.Serve: `serveError` stands only for an error the running serve future returns. A failure to bind the address panics inside `axum::Server::bind`, before the `map_err` at src/main.rs:139-142, so it stops no stop token, and the dispatcher tasks keep running while `main` waits for them. The model does not cover that path.
- tokio's `spawn`, `JoinSet` and `join_next`, and the concurrency between the bots: `Build` returns the spawned tasks as a sequence, and the wait for them in `main` is not modelled. The server's `JoinHandle` is dropped by `main` and is not modelled either.
- The webhook listener factory `webhooks::axum_to_router` is library code: its result is the parameter `Setup`. The listener, its stop flag and the dispatcher futures are opaque values.
- URL parsing (`url::Url`) is library code: whether a callback URL parses is the parameter `urlParses`.
- Server.Merge: only states that every route is kept. Axum's `Router::merge` panics on overlapping routes, for example when two tokens share a bot id. The model unions the route sets instead, so it keeps one route for both bots and does not model that panic. The webhook listener mounts the path of the parsed URL, not the URL string. So distinct ids give distinct routes only in this string model (`Server.CallbackUrlInjective`, `Server.RoutesCount`). Ids such as `1?a` and `1?b` give the same path, and merging the second panics.
- The stop flags are recorded but never read: `build` drops them, and the graceful shutdown that would use them is commented out in the source.
- Teloxide's network calls (`get_me`, `send_message`) are not modelled. Their outcomes are the parameters `me` and `sendOk`.
- Parsing a message's text into a command (`BotCommands`): the command is part of the update. The lowercase naming rule is stated by `States.CommandNames`.
- The dialogue storage (`InMemStorage`) is a map from chat to state; how the library stores and locks it is not modelled.
- States.Step: a chat not in the store is read as `Start` but is not written back. The library's `get_or_default`, called by `dialogue::enter`, stores `Start` for such a chat. So `States.RunKeepsStore` and `States.NeverLeavesStart` state an unchanged store as `StateOf` reads it, not the library's stored map literally.
- `create_dispatcher` and the dispatcher's own loop are library code. How an update is handled is modelled by `States.Dispatch` and `States.Run`.
- The text printed by the dispatcher's error handler is not modelled, nor is the error value an endpoint returns. An endpoint's failure is only the flag `ok`.
- `println!` output is modelled as a sequence of lines (`Server.RegisterAll`'s log).
- Server.StopToken.Stop: only the stopped flag is modelled; ending the listener's update stream is not.
