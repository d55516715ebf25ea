/** The outcome of a `fetch` against the backend, and the message of the error
    the contexts throw when it fails. */
module Http {
  import opened Wrappers
  import opened Text
  import opened Js

  /** `Ok` carries the decoded JSON body of a response with `res.ok`; `NotOk` a
      response without it, with the `message` of its JSON body if it had one;
      `TransportError` a request that threw before any response arrived. */
  datatype Response<T> =
    | Ok(body: T)
    | NotOk(status: nat, statusText: string, message: Option<string>)
    | TransportError(reason: string)

  /** The message of the thrown error: `errorData.message || \`Error ${status}: ${statusText}\``
      for a response without `ok`, the transport's own message otherwise; `None`
      for a successful response. */
  function ErrorOf<T>(r: Response<T>): (m: Option<string>)
    ensures m.None? <==> r.Ok?
    ensures r.NotOk? && TruthyText(r.message) ==> m == r.message
    ensures r.NotOk? && !TruthyText(r.message) ==> m == Some("Error " + NatToString(r.status) + ": " + r.statusText)
    ensures r.TransportError? ==> m == Some(r.reason)
  {
    match r
    case Ok(_) => None
    case NotOk(status, statusText, message) =>
      if TruthyText(message) then message else Some("Error " + NatToString(status) + ": " + statusText)
    case TransportError(reason) => Some(reason)
  }
}
