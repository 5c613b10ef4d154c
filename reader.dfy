/** The reader sub-dialogue of `src/handlers/reader.rs`. */
module ReaderHandler {
  import opened Wrappers
  import opened Messages

  /** The reader sub-state: one variant, which is the default. */
  datatype ReaderState = Start

  function DefaultReaderState(): ReaderState
  {
    Start
  }

  /** Every reader sub-state is the default one. */
  lemma OnlyReaderState(s: ReaderState)
    ensures s == DefaultReaderState()
  {
  }

  const ReaderText: string := "reader"

  /** The `reader` endpoint: it takes no dialogue, so it cannot change the state. */
  function Reader(msg: Message, sendOk: bool): (h: Handled)
    ensures h.sent == Some(Reply(msg.chat, "reader"))
    ensures h.ok <==> sendOk
  {
    SendReply(msg, ReaderText, sendOk)
  }

  /** `reader::schema()`: an endpoint with no guard, so it handles every message
      routed to it, whatever the sub-state, by replying "reader" to the
      message's chat. */
  function Schema(state: ReaderState, msg: Message, sendOk: bool): (h: Option<Handled>)
    ensures h.Some?
    ensures h.value.sent == Some(Reply(msg.chat, "reader"))
    ensures h.value.ok <==> sendOk
  {
    Some(Reader(msg, sendOk))
  }
}
