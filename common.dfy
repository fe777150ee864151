/** Values shared by every part of the model: optional values and the
    outcome of a request to the REST backend. */
module Common {

  datatype Option<+T> = None | Some(value: T)

  /** The outcome of one awaited HTTP request: the response body on success,
      or the rejected error with its `response.status` and
      `response.data.message` when the server sent them. */
  datatype Reply<+T> = Ok(data: T) | Fail(status: Option<int>, message: Option<string>)

  /** JavaScript truthiness of an optional string: `undefined`, `null` and
      `''` are falsy, every other string is truthy. */
  predicate Truthy(s: Option<string>)
  {
    s.Some? && s.value != ""
  }

  /** `error?.response?.data?.message || fallback`: the server's message
      when it sent a non-empty one, otherwise the form's own fallback. */
  function MessageOr(message: Option<string>, fallback: string): (r: string)
    ensures Truthy(message) ==> r == message.value
    ensures !Truthy(message) ==> r == fallback
    ensures fallback != "" ==> r != ""
  {
    if message.Some? && message.value != "" then message.value else fallback
  }

  /** Where a loader or action sends the browser instead of rendering. */
  datatype Redirect = Redirect(to: string)
}
