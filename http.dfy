/** The HTTP exchanges the pages take part in, as values: the request a
    handler would issue and the response (or network failure) it gets back. */
module Http {
  import opened Js

  const ApiBaseUrl := "https://user-microservice1.onrender.com"

  /** What `await response.json()` yields: the decoded body, or the
      `SyntaxError` it throws when the body is not JSON. */
  datatype Decoded<+B> = Unparsable(syntaxError: string) | Parsed(value: B)

  /** The outcome of one `fetch`: it rejects with an error message (network
      unreachable, request aborted), or it resolves with a response whose
      `ok` flag, `status` and body are given. */
  datatype Exchange<+B> =
    | Failed(message: string)
    | Received(ok: bool, status: nat, body: Decoded<B>)

  /** A request a handler issues: a JSON `POST` with its body's string
      fields, or a `GET` with its `Authorization` header. */
  datatype Request =
    | Post(url: string, body: map<string, string>)
    | Get(url: string, authorization: string)
}
