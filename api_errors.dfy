/**
 * The error objects the frontend stores catch from a DAO call (an axios
 * error), and the message chains they build from them.
 */
module ApiErrors {
  import opened Wrappers

  /**
   * `err.response?.data?.message` (absent for network errors or a body
   * without a message) and `err.message`.
   */
  datatype ApiError = ApiError(serverMessage: Option<string>, message: string)

  /** JavaScript truthiness of an optional string: present and not empty. */
  predicate Present(s: Option<string>) {
    s.Some? && s.value != ""
  }

  /** `err.response?.data?.message || fallback` */
  function ServerMessageOr(e: ApiError, fallback: string): (text: string)
    ensures Present(e.serverMessage) ==> text == e.serverMessage.value
    ensures !Present(e.serverMessage) ==> text == fallback
  {
    if Present(e.serverMessage) then e.serverMessage.value else fallback
  }

  /** `err.response?.data?.message || err.message || fallback` */
  function ErrorText(e: ApiError, fallback: string): (text: string)
    requires fallback != ""
    ensures text != ""
    ensures Present(e.serverMessage) ==> text == e.serverMessage.value
    ensures !Present(e.serverMessage) && e.message != "" ==> text == e.message
    ensures !Present(e.serverMessage) && e.message == "" ==> text == fallback
  {
    if Present(e.serverMessage) then e.serverMessage.value
    else if e.message != "" then e.message
    else fallback
  }
}
