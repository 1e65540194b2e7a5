/**
 * `TripService`: the requests its five operations build against the fixed base URL, and how
 * the one shared `sendRequest` classifies what comes back. The network itself is an input:
 * each call is given the `Exchange` that `URLSession` would produce.
 */
module TripService {
  import opened Wrappers
  import opened Wire
  import opened Model
  import opened ApiErrors

  /** The base URL every path below is appended to. */
  const BaseURL: string := "https://caa580355b32f90cfff0.free.beeceptor.com"

  datatype Method = Get | Post | Put | Delete

  datatype QueryItem = QueryItem(name: string, value: string)

  /** A `URLRequest`; `path` is relative to `BaseURL`, and an empty `query` means no query string. */
  datatype Request = Request(
    verb: Method,
    path: string,
    query: seq<QueryItem>,
    headers: map<string, string>,
    body: Option<Json>)

  /** What `session.data(for:)` returns: the response (`isHttp` is false for a `URLResponse`
      that is not an `HTTPURLResponse`) and its data, `None` when the data is not JSON at all. */
  datatype Response = Response(isHttp: bool, status: int, body: Option<Json>)

  /** A response, or the transport error `session.data(for:)` throws. */
  datatype Exchange = Received(response: Response) | TransportFailed(cause: Cause)

  /** One call: the request issued (`None` when the call throws before reaching the network)
      and what the call returns or throws. */
  datatype Call<T> = Call(sent: Option<Request>, result: Result<T, ServiceError>)

  const JsonContentType: map<string, string> := map["Content-Type" := "application/json"]

  /** The guard of `sendRequest`: an HTTP response whose status is in 200..<300. */
  predicate Accepted(r: Response) {
    r.isHttp && 200 <= r.status < 300
  }

  /** `sendRequest`: only an accepted response reaches the decoder; every other response
      becomes `invalidResponse` whatever its status or body, and a decoder failure is thrown
      as the decoder's own error rather than as an `APIError`. */
  function SendRequest<T>(x: Exchange, decode: Json -> Result<T, DecodingError>): (r: Result<T, ServiceError>)
    ensures x.TransportFailed? ==> r == Err(Transport(x.cause))
    ensures x.Received? && !Accepted(x.response) ==> r == Err(Api(InvalidResponse))
    ensures r.Ok? <==>
      x.Received? && Accepted(x.response) && x.response.body.Some? && decode(x.response.body.value).Ok?
    ensures r.Ok? ==> decode(x.response.body.value) == Ok(r.value)
    ensures x.Received? && Accepted(x.response) && x.response.body.Some? && decode(x.response.body.value).Err? ==>
      r == Err(Decoding(decode(x.response.body.value).error))
    ensures x.Received? && Accepted(x.response) && x.response.body.None? ==> r == Err(Decoding(DataCorrupted("")))
  {
    match x
    case TransportFailed(cause) => Err(Transport(cause))
    case Received(response) =>
      if !Accepted(response) then Err(Api(InvalidResponse))
      else match response.body
        case None => Err(Decoding(DataCorrupted("")))
        case Some(j) =>
          match decode(j)
          case Ok(v) => Ok(v)
          case Err(e) => Err(Decoding(e))
  }

  /** The decoder is consulted only for an accepted response: when two decoders lead to
      different results, the response was an HTTP 2xx carrying JSON. */
  lemma DecoderOnlyOnSuccess<T>(x: Exchange, d1: Json -> Result<T, DecodingError>, d2: Json -> Result<T, DecodingError>)
    ensures SendRequest(x, d1) != SendRequest(x, d2) ==>
      x.Received? && Accepted(x.response) && x.response.body.Some?
  {
  }

  function TripListDecoder(c: DateCodec): Json -> Result<seq<Trip>, DecodingError> {
    j => DecodeList(j, TripDecoder(c))
  }

  function FlightListDecoder(c: DateCodec): Json -> Result<seq<Flight>, DecodingError> {
    j => DecodeList(j, FlightDecoder(c))
  }

  /** `fetchTrips`: a bare GET of `trips`. */
  function FetchTrips(c: DateCodec, x: Exchange): (r: Call<seq<Trip>>)
    ensures r.sent == Some(Request(Get, "trips", [], map[], None))
    ensures r.result == SendRequest(x, TripListDecoder(c))
  {
    Call(Some(Request(Get, "trips", [], map[], None)), SendRequest(x, TripListDecoder(c)))
  }

  /** `createTrip`: a POST of the encoded trip to `trips`; encoding can throw first, and then
      nothing is sent. The trip returned is the server's decoded copy. */
  function CreateTrip(c: DateCodec, trip: Trip, x: Exchange): (r: Call<Trip>)
    ensures r.sent.Some? <==> Encodable(trip)
    ensures r.sent.None? ==> r.result.Err? && r.result.error.Encoding?
    ensures r.sent.Some? ==>
      && r.sent.value == Request(Post, "trips", [], JsonContentType, Some(EncodeTrip(c, trip).value))
      && r.result == SendRequest(x, TripDecoder(c))
  {
    match EncodeTrip(c, trip)
    case Err(e) => Call(None, Err(Encoding(e)))
    case Ok(body) => Call(Some(Request(Post, "trips", [], JsonContentType, Some(body))), SendRequest(x, TripDecoder(c)))
  }

  /** `updateTrip`: a PUT of the encoded trip to `trips/<id>`. */
  function UpdateTrip(c: DateCodec, trip: Trip, x: Exchange): (r: Call<Trip>)
    ensures r.sent.Some? <==> Encodable(trip)
    ensures r.sent.None? ==> r.result.Err? && r.result.error.Encoding?
    ensures r.sent.Some? ==>
      && r.sent.value == Request(Put, "trips/" + trip.id, [], JsonContentType, Some(EncodeTrip(c, trip).value))
      && r.result == SendRequest(x, TripDecoder(c))
  {
    match EncodeTrip(c, trip)
    case Err(e) => Call(None, Err(Encoding(e)))
    case Ok(body) => Call(Some(Request(Put, "trips/" + trip.id, [], JsonContentType, Some(body))), SendRequest(x, TripDecoder(c)))
  }

  /** `deleteTrip`: a DELETE of `trips/<id>` whose response is never inspected, so any
      response at all, whatever its status, counts as success. */
  function DeleteTrip(id: string, x: Exchange): (r: Call<()>)
    ensures r.sent == Some(Request(Delete, "trips/" + id, [], map[], None))
    ensures r.result.Ok? <==> x.Received?
    ensures x.TransportFailed? ==> r.result == Err(Transport(x.cause))
  {
    Call(
      Some(Request(Delete, "trips/" + id, [], map[], None)),
      match x
      case Received(_) => Ok(())
      case TransportFailed(cause) => Err(Transport(cause)))
  }

  /** `fetchFlights`: a GET of `flights` that carries `destination=<value>` exactly when a
      non-empty destination is given (it is not trimmed). `urlBuilt` says whether
      `URLComponents` yields a URL; when it does not, `invalidURL` is thrown before any request. */
  function FetchFlights(c: DateCodec, destination: Option<string>, urlBuilt: bool, x: Exchange): (r: Call<seq<Flight>>)
    ensures r.sent.None? <==> !urlBuilt
    ensures !urlBuilt ==> r.result == Err(Api(InvalidURL))
    ensures r.sent.Some? ==>
      && r.sent.value.verb == Get && r.sent.value.path == "flights"
      && r.sent.value.headers == map[] && r.sent.value.body.None?
      && |r.sent.value.query| <= 1
      && (|r.sent.value.query| == 1 <==> destination.Some? && destination.value != [])
      && (destination.Some? && destination.value != [] ==>
            r.sent.value.query[0] == QueryItem("destination", destination.value))
      && r.result == SendRequest(x, FlightListDecoder(c))
  {
    var query := match destination
      case Some(d) => if d != [] then [QueryItem("destination", d)] else []
      case None => [];
    if !urlBuilt then Call(None, Err(Api(InvalidURL)))
    else Call(Some(Request(Get, "flights", query, map[], None)), SendRequest(x, FlightListDecoder(c)))
  }

  /** The body `createTrip` and `updateTrip` send decodes back to the very trip given. */
  lemma SentBodyIsTrip(c: DateCodec, trip: Trip, x: Exchange)
    requires RoundTrips(c)
    ensures CreateTrip(c, trip, x).sent.Some? ==>
      DecodeTrip(c, CreateTrip(c, trip, x).sent.value.body.value) == Ok(trip)
    ensures UpdateTrip(c, trip, x).sent.Some? ==>
      DecodeTrip(c, UpdateTrip(c, trip, x).sent.value.body.value) == Ok(trip)
  {
    TripRoundTrip(c, trip);
  }

  /** A whitespace-only destination still produces a query: `fetchFlights` does not trim. */
  lemma BlankDestinationIsQueried(c: DateCodec, x: Exchange)
    ensures FetchFlights(c, Some(" "), true, x).sent.value.query == [QueryItem("destination", " ")]
  {
  }

  /** No operation ever throws `APIError.NetworkError`: transport errors pass through unwrapped. */
  lemma NetworkErrorNeverThrown(c: DateCodec, trip: Trip, id: string, d: Option<string>, urlBuilt: bool, x: Exchange)
    ensures forall e :: FetchTrips(c, x).result != Err(Api(NetworkError(e)))
    ensures forall e :: CreateTrip(c, trip, x).result != Err(Api(NetworkError(e)))
    ensures forall e :: UpdateTrip(c, trip, x).result != Err(Api(NetworkError(e)))
    ensures forall e :: DeleteTrip(id, x).result != Err(Api(NetworkError(e)))
    ensures forall e :: FetchFlights(c, d, urlBuilt, x).result != Err(Api(NetworkError(e)))
  {
  }

  /** A rejected status keeps neither the status code nor the body: a 503 "maintenance" reply
      to `fetchTrips` surfaces only as `invalidResponse`, described as a decoding failure. */
  lemma RejectedStatusIsOpaque(c: DateCodec)
    ensures var r := FetchTrips(c, Received(Response(true, 503, Some(JString("maintenance"))))).result;
      && r == Err(Api(InvalidResponse))
      && ErrorDescription(r.error.api) == Some("failed to decode response")
  {
  }

  /** A 200 whose body is not JSON, or is JSON of the wrong shape (a string where an array is
      expected, `null` where an array or a trip is expected), fails as a decoding error and not as an `APIError`: a payload that does not
      parse is told apart from a rejected status only by the type of the error. */
  lemma UnparsableBodyIsDecodingError(c: DateCodec)
    ensures FetchTrips(c, Received(Response(true, 200, None))).result == Err(Decoding(DataCorrupted("")))
    ensures FetchTrips(c, Received(Response(true, 200, Some(JString("not json"))))).result == Err(Decoding(TypeMismatch("")))
    ensures FetchTrips(c, Received(Response(true, 200, Some(JNull)))).result == Err(Decoding(ValueNotFound("")))
    ensures FetchTrips(c, Received(Response(true, 200, Some(JArray([JNull]))))).result == Err(Decoding(ValueNotFound("")))
  {
  }
}
