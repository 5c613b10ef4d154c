/**
 * What the dialogue handlers see of the chat library: an incoming message
 * reduced to its chat and its text, the one request a handler makes
 * (`send_message`), and what a handler returns.
 */
module Messages {
  import opened Wrappers

  type ChatId = int

  /** An incoming chat message: the chat it came from and its text, if it has one. */
  datatype Message = Message(chat: ChatId, text: Option<string>)

  /** One `send_message` request: the chat it goes to and the text. */
  datatype Reply = Reply(chat: ChatId, text: string)

  /** What an endpoint did: the message it asked the bot to send, if it got
      that far, and whether it returned `Ok(())`. */
  datatype Handled = Handled(sent: Option<Reply>, ok: bool)

  /** The body every endpoint here shares: `bot.send_message(msg.chat.id, text).await?`.
      `sendOk` is whether the request succeeded; a failed request is the
      endpoint's error. */
  function SendReply(msg: Message, text: string, sendOk: bool): (h: Handled)
    ensures h.sent.Some? && h.sent.value.chat == msg.chat && h.sent.value.text == text
    ensures h.ok <==> sendOk
  {
    Handled(Some(Reply(msg.chat, text)), sendOk)
  }
}
