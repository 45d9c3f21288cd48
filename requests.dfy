/**
 * The argument mappings of the request operations that run on the network
 * runtime (src/connection.rs, `send_message`, `delete_devices`,
 * `send_typing_notice`). The protocol calls themselves are not modelled.
 */
module Requests {
  import opened Wrappers
  import Auth

  /** A version-4 UUID, as its 128 bits. */
  type Uuid = bv128

  type RoomId = string

  /** `TYPING_NOTICE_TIMEOUT`, in seconds. */
  const TYPING_NOTICE_TIMEOUT_SECS: nat := 4

  /** The request `room_send` is given. */
  datatype RoomSend<Content> = RoomSend(roomId: RoomId, content: Content, transactionId: Option<Uuid>)

  /** `Typing` of the typing-notice request. */
  datatype Typing = Yes(timeoutSecs: nat) | No

  /** `send_message`: the caller's transaction id when one is given, else a
      freshly generated one (`generated` stands for `Uuid::new_v4()`); the
      request always carries one. */
  function SendMessageRequest<Content>(roomId: RoomId, content: Content, transactionId: Option<Uuid>, generated: Uuid): (r: RoomSend<Content>)
    ensures r.roomId == roomId && r.content == content
    ensures r.transactionId.Some?
    ensures transactionId.Some? ==> r.transactionId == transactionId
    ensures transactionId.None? ==> r.transactionId == Some(generated)
  {
    RoomSend(roomId, content, Some(match transactionId case Some(t) => t case None => generated))
  }

  /** A retried send with the same explicit transaction id is the same
      request, whatever id would have been generated: the server can
      deduplicate it. */
  lemma RetriedSendIsIdentical<Content>(roomId: RoomId, content: Content, t: Uuid, generated1: Uuid, generated2: Uuid)
    ensures SendMessageRequest(roomId, content, Some(t), generated1) == SendMessageRequest(roomId, content, Some(t), generated2)
  {
  }

  /** `send_typing_notice`: `true` sets the notice with the 4-second hint,
      `false` clears it. */
  function TypingNotice(typing: bool): (r: Typing)
    ensures r.Yes? <==> typing
    ensures r.Yes? ==> r.timeoutSecs == TYPING_NOTICE_TIMEOUT_SECS
  {
    if typing then Yes(TYPING_NOTICE_TIMEOUT_SECS) else No
  }

  /** `delete_devices`: the interactive-auth payload is sent exactly when the
      caller supplied credentials, and it carries those credentials. */
  function DeleteDevicesAuth(authInfo: Option<Auth.InteractiveAuthInfo>): (r: Option<Auth.AuthData>)
    ensures r.Some? <==> authInfo.Some?
    ensures r.Some? ==> Auth.Credentials(r.value) == Some(authInfo.value)
  {
    match authInfo
    case Some(info) =>
      Auth.CredentialsOfAuthData(info);
      Some(Auth.AsAuthData(info))
    case None => None
  }
}
