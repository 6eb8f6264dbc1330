/** What the pages see of an API request: it succeeded, or it failed with the message the
    server put in its error body, if any (`err.response?.data?.message`). */
module Client {
  import opened Js

  datatype Outcome = Succeeded | Failed(message: Option<string>)

  /** A request a page sends through the API client, with its path and, for an update, its
      JSON body. */
  datatype Request = Get(path: string) | Put(path: string, body: Object) | Delete(path: string)

  /** `err.response?.data?.message || fallback`. */
  function FailureText(outcome: Outcome, fallback: string): (text: string)
    requires outcome.Failed?
    ensures outcome.message.Some? && outcome.message.value != "" ==> text == outcome.message.value
    ensures outcome.message.None? || outcome.message.value == "" ==> text == fallback
  {
    OptOrElse(outcome.message, fallback)
  }
}
