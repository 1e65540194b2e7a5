/** The app's own error enum and the errors a service call can throw. */
module ApiErrors {
  import opened Wrappers
  import opened Wire

  /** Any other Swift `Error`, known only by its `localizedDescription`. */
  datatype Cause = Cause(description: string)

  /** `APIError`. */
  datatype APIError = InvalidURL | InvalidResponse | NetworkError(cause: Cause)

  /** `errorDescription`: total, so `localizedDescription` always shows one of these texts. */
  function ErrorDescription(e: APIError): (d: Option<string>)
    ensures d.Some?
    ensures e == InvalidURL ==> d.value == "Invalid URL"
    ensures e == InvalidResponse ==> d.value == "failed to decode response"
    ensures e.NetworkError? ==> d.value == e.cause.description
  {
    match e
    case InvalidURL => Some("Invalid URL")
    case InvalidResponse => Some("failed to decode response")
    case NetworkError(cause) => Some(cause.description)
  }

  /** Everything a `TripService` call can throw: its own `APIError`s, the decoder's and the
      encoder's errors passed through unchanged, and `URLSession`'s transport errors. */
  datatype ServiceError =
    | Api(api: APIError)
    | Decoding(decoding: DecodingError)
    | Encoding(encoding: EncodingError)
    | Transport(cause: Cause)

  /** `error.localizedDescription`, the text the view models show: an `APIError` shows its own
      description; the text of every other error comes from Foundation and is given as `other`. */
  function LocalizedDescription(e: ServiceError, other: ServiceError -> string): (text: string)
    ensures e.Api? ==> Some(text) == ErrorDescription(e.api)
    ensures e.Api? && e.api == InvalidResponse ==> text == "failed to decode response"
    ensures !e.Api? ==> text == other(e)
  {
    match e
    case Api(a) => ErrorDescription(a).value
    case _ => other(e)
  }
}
