/** The admin sub-dialogue of `src/handlers/admin.rs`. */
module AdminHandler {
  import opened Wrappers
  import opened Messages

  /** The admin sub-state: one variant, which is the default. */
  datatype AdminState = Start

  function DefaultAdminState(): AdminState
  {
    Start
  }

  /** Every admin sub-state is the default one. */
  lemma OnlyAdminState(s: AdminState)
    ensures s == DefaultAdminState()
  {
  }

  const AdminText: string := "admin default"

  /** The `admin` endpoint: it takes no dialogue, so it cannot change the state. */
  function Admin(msg: Message, sendOk: bool): (h: Handled)
    ensures h.sent == Some(Reply(msg.chat, "admin default"))
    ensures h.ok <==> sendOk
  {
    SendReply(msg, AdminText, sendOk)
  }

  /** `admin::schema()`: an endpoint with no guard, so it handles every message
      routed to it, whatever the sub-state, by replying "admin default" to the
      message's chat. */
  function Schema(state: AdminState, msg: Message, sendOk: bool): (h: Option<Handled>)
    ensures h.Some?
    ensures h.value.sent == Some(Reply(msg.chat, "admin default"))
    ensures h.value.ok <==> sendOk
  {
    Some(Admin(msg, sendOk))
  }
}
