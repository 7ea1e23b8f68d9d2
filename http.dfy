/** An HTTP reply as the Express handlers send it: a success status with a
    JSON body, or an error status with the `{ message }` body every handler
    uses for its failures. */
module Http {
  import opened Wrappers

  datatype Response<+T> =
    | Success(code: int, body: T)
    | Failure(code: int, message: string)

  const ServerError := "Server error"

  /** What the forms show when a request fails:
      `err.response?.data?.message || fallback`, so the server's message
      when it sent a non-empty one, the form's own text otherwise, and never
      an empty error for a non-empty fallback. */
  function ErrorText(serverMessage: Option<string>, fallback: string): (s: string)
    ensures TruthyText(serverMessage) ==> s == serverMessage.value
    ensures !TruthyText(serverMessage) ==> s == fallback
    ensures fallback != "" ==> s != ""
  {
    if TruthyText(serverMessage) then serverMessage.value else fallback
  }
}
