/** Option, and the outcome of one HTTP request as the client components see it. */
module Wrappers {

  datatype Option<+T> = None | Some(value: T)

  /** The outcome of an axios call: the response body, or a rejection that may
      carry the server's `message` field (`err.response?.data?.message`). */
  datatype Reply<+T> = Ok(data: T) | Failed(message: Option<string>)

  /** `err.response?.data?.message || fallback`: the server's message when it is
      present and non-empty, the component's own text otherwise. */
  function ErrorText(message: Option<string>, fallback: string): (t: string)
    ensures message.Some? && message.value != "" ==> t == message.value
    ensures message.None? || message.value == "" ==> t == fallback
  {
    match message
    case Some(m) => if m != "" then m else fallback
    case None => fallback
  }

  /** JavaScript truthiness of an optional string: present and not empty. */
  predicate Truthy(s: Option<string>) {
    s.Some? && s.value != ""
  }
}
