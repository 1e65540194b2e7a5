/**
 * The four records the app exchanges with its backend, their JSON key sets, and the
 * encoding and decoding that their `Codable` conformances synthesize.
 */
module Model {
  import opened Wrappers
  import opened Wire

  /** Dates are whole-second instants; `date` is deliberately a plain string. */
  datatype Activity = Activity(id: string, name: string, description: string, date: string, location: string)

  datatype Hotel = Hotel(
    id: string,
    name: string,
    location: string,
    checkInDate: int,
    checkOutDate: int,
    price: Price,
    imageURL: Option<string>)

  datatype Flight = Flight(
    id: string,
    airline: string,
    departureTime: int,
    arrivalTime: int,
    price: Price,
    from: string,
    to: string,
    duration: string)

  datatype Trip = Trip(
    id: string,
    name: string,
    destination: string,
    startDate: int,
    endDate: int,
    activities: seq<Activity>,
    hotels: seq<Hotel>,
    flights: seq<Flight>,
    imageURL: Option<string>)

  /** The `CodingKeys` of each record. `Activity` declares its enum as `Codingkeys`, which Swift
      does not take for the coding-key enum, so its keys are the synthesized property names. */
  const TripKeys: set<string> :=
    {"id", "name", "destination", "startDate", "endDate", "activities", "hotels", "flights", "imageURL"}
  const ActivityKeys: set<string> := {"id", "name", "description", "date", "location"}
  const HotelKeys: set<string> := {"id", "name", "location", "checkInDate", "checkOutDate", "price", "imageURL"}
  const FlightKeys: set<string> := {"id", "airline", "departureTime", "arrivalTime", "price", "from", "to", "duration"}

  /** The only optional property any record has. */
  const OptionalKey: string := "imageURL"

  /** The keys an encoded record carries: `encodeIfPresent` leaves out a `nil` image URL. */
  function KeysWritten(keys: set<string>, imageURL: Option<string>): set<string> {
    if imageURL.Some? then keys else keys - {OptionalKey}
  }

  /** Every price in the trip is finite, so `JSONEncoder` can write it. */
  ghost predicate Encodable(t: Trip) {
    && (forall i :: 0 <= i < |t.hotels| ==> t.hotels[i].price.IsFinite())
    && (forall i :: 0 <= i < |t.flights| ==> t.flights[i].price.IsFinite())
  }

  // ---------------------------------------------------------------------------------------
  // Encoding

  function EncodeActivity(a: Activity): (r: Json)
    ensures r.JObject? && r.fields.Keys == ActivityKeys
    ensures ReadString(r.fields, "id") == Ok(a.id) && ReadString(r.fields, "name") == Ok(a.name)
    ensures ReadString(r.fields, "description") == Ok(a.description) && ReadString(r.fields, "date") == Ok(a.date)
    ensures ReadString(r.fields, "location") == Ok(a.location)
  {
    JObject(map[
      "id" := JString(a.id),
      "name" := JString(a.name),
      "description" := JString(a.description),
      "date" := JString(a.date),
      "location" := JString(a.location)])
  }

  function EncodeHotel(c: DateCodec, h: Hotel): (r: Result<Json, EncodingError>)
    ensures r.Ok? <==> h.price.IsFinite()
    ensures r.Ok? ==> r.value.JObject? && r.value.fields.Keys == KeysWritten(HotelKeys, h.imageURL)
    ensures r.Ok? ==> var o := r.value.fields;
      && ReadString(o, "id") == Ok(h.id)
      && ReadString(o, "name") == Ok(h.name)
      && ReadString(o, "location") == Ok(h.location)
      && (RoundTrips(c) ==> ReadDate(c, o, "checkInDate") == Ok(h.checkInDate))
      && (RoundTrips(c) ==> ReadDate(c, o, "checkOutDate") == Ok(h.checkOutDate))
      && ReadNumber(o, "price") == Ok(h.price)
      && ReadOptionalString(o, OptionalKey) == Ok(h.imageURL)
  {
    if !h.price.IsFinite() then Err(InvalidFloat(h.price))
    else
      assert RoundTrips(c) ==> c.parse(c.format(h.checkInDate)) == Some(h.checkInDate);
      assert RoundTrips(c) ==> c.parse(c.format(h.checkOutDate)) == Some(h.checkOutDate);
      Ok(JObject(map[
        "id" := JString(h.id),
        "name" := JString(h.name),
        "location" := JString(h.location),
        "checkInDate" := JString(c.format(h.checkInDate)),
        "checkOutDate" := JString(c.format(h.checkOutDate)),
        "price" := JNumber(h.price)] + OptionalEntry(OptionalKey, h.imageURL)))
  }

  function EncodeFlight(c: DateCodec, f: Flight): (r: Result<Json, EncodingError>)
    ensures r.Ok? <==> f.price.IsFinite()
    ensures r.Ok? ==> r.value.JObject? && r.value.fields.Keys == FlightKeys
    ensures r.Ok? ==> var o := r.value.fields;
      && ReadString(o, "id") == Ok(f.id)
      && ReadString(o, "airline") == Ok(f.airline)
      && (RoundTrips(c) ==> ReadDate(c, o, "departureTime") == Ok(f.departureTime))
      && (RoundTrips(c) ==> ReadDate(c, o, "arrivalTime") == Ok(f.arrivalTime))
      && ReadNumber(o, "price") == Ok(f.price)
      && ReadString(o, "from") == Ok(f.from)
      && ReadString(o, "to") == Ok(f.to)
      && ReadString(o, "duration") == Ok(f.duration)
  {
    if !f.price.IsFinite() then Err(InvalidFloat(f.price))
    else
      assert RoundTrips(c) ==> c.parse(c.format(f.departureTime)) == Some(f.departureTime);
      assert RoundTrips(c) ==> c.parse(c.format(f.arrivalTime)) == Some(f.arrivalTime);
      Ok(JObject(map[
        "id" := JString(f.id),
        "airline" := JString(f.airline),
        "departureTime" := JString(c.format(f.departureTime)),
        "arrivalTime" := JString(c.format(f.arrivalTime)),
        "price" := JNumber(f.price),
        "from" := JString(f.from),
        "to" := JString(f.to),
        "duration" := JString(f.duration)]))
  }

  /** `xs[i]` is the first element that `f` fails on. */
  ghost predicate FirstFailure<A, B, E>(xs: seq<A>, f: A -> Result<B, E>, i: int) {
    0 <= i < |xs| && f(xs[i]).Err? && forall k :: 0 <= k < i ==> f(xs[k]).Ok?
  }

  /**
   * An array, element by element in order, as both the synthesized encoding and decoding of an
   * array do it: the first element that fails stops the whole array with that element's error.
   */
  function EachElement<A, B, E>(xs: seq<A>, f: A -> Result<B, E>): (r: Result<seq<B>, E>)
    ensures r.Ok? <==> forall i :: 0 <= i < |xs| ==> f(xs[i]).Ok?
    ensures r.Ok? ==> |r.value| == |xs| && forall i :: 0 <= i < |xs| ==> f(xs[i]) == Ok(r.value[i])
    ensures r.Err? ==> exists i :: FirstFailure(xs, f, i) && f(xs[i]) == Err(r.error)
  {
    if xs == [] then Ok([])
    else
      var head :- f(xs[0]);
      var tail :- EachElement(xs[1..], f);
      assert forall i :: 1 <= i < |xs| ==> xs[i] == xs[1..][i - 1];
      Ok([head] + tail)
  }

  /** Writing an activity never throws: it holds neither a date nor a number. */
  function ActivityEncoder(): Activity -> Result<Json, EncodingError> {
    a => Ok(EncodeActivity(a))
  }

  function HotelEncoder(c: DateCodec): Hotel -> Result<Json, EncodingError> {
    h => EncodeHotel(c, h)
  }

  function FlightEncoder(c: DateCodec): Flight -> Result<Json, EncodingError> {
    f => EncodeFlight(c, f)
  }

  /** A hotel list encodes exactly when every hotel's price is finite. */
  lemma HotelsEncodable(c: DateCodec, hs: seq<Hotel>)
    ensures EachElement(hs, HotelEncoder(c)).Ok? <==> forall i :: 0 <= i < |hs| ==> hs[i].price.IsFinite()
  {
  }

  /** A flight list encodes exactly when every flight's price is finite. */
  lemma FlightsEncodable(c: DateCodec, fs: seq<Flight>)
    ensures EachElement(fs, FlightEncoder(c)).Ok? <==> forall i :: 0 <= i < |fs| ==> fs[i].price.IsFinite()
  {
  }

  /** `JSONEncoder.encode(trip)` with the `.iso8601` date strategy: it throws only for a
      non-finite price, and otherwise writes every key but a `nil` image URL. */
  function EncodeTrip(c: DateCodec, t: Trip): (r: Result<Json, EncodingError>)
    ensures r.Ok? <==> Encodable(t)
    ensures r.Ok? ==> r.value.JObject? && r.value.fields.Keys == KeysWritten(TripKeys, t.imageURL)
  {
    HotelsEncodable(c, t.hotels);
    FlightsEncodable(c, t.flights);
    var activities := EachElement(t.activities, ActivityEncoder()).value;
    var hotels :- EachElement(t.hotels, HotelEncoder(c));
    var flights :- EachElement(t.flights, FlightEncoder(c));
    Ok(JObject(TripObject(c, t, activities, hotels, flights)))
  }

  /** The object a trip is written as, once its arrays have been written. */
  function TripObject(c: DateCodec, t: Trip, activities: seq<Json>, hotels: seq<Json>, flights: seq<Json>): (o: map<string, Json>)
    ensures o.Keys == KeysWritten(TripKeys, t.imageURL)
  {
    map[
      "id" := JString(t.id),
      "name" := JString(t.name),
      "destination" := JString(t.destination),
      "startDate" := JString(c.format(t.startDate)),
      "endDate" := JString(c.format(t.endDate)),
      "activities" := JArray(activities),
      "hotels" := JArray(hotels),
      "flights" := JArray(flights)] + OptionalEntry(OptionalKey, t.imageURL)
  }

  // ---------------------------------------------------------------------------------------
  // Decoding: each synthesized `init(from:)` reads its keys in declaration order and stops at
  // the first failure; keys outside the record's key set are never looked at.

  function DecodeActivity(j: Json): (r: Result<Activity, DecodingError>)
    ensures r.Ok? ==> j.JObject? && ActivityKeys <= j.fields.Keys
    ensures r.Ok? ==>
      && ReadString(j.fields, "id") == Ok(r.value.id)
      && ReadString(j.fields, "name") == Ok(r.value.name)
      && ReadString(j.fields, "description") == Ok(r.value.description)
      && ReadString(j.fields, "date") == Ok(r.value.date)
      && ReadString(j.fields, "location") == Ok(r.value.location)
    ensures j.JNull? ==> r == Err(ValueNotFound(""))
    ensures !j.JObject? && !j.JNull? ==> r == Err(TypeMismatch(""))
  {
    if !j.JObject? then Err(ContainerMismatch(j))
    else
      var o := j.fields;
      var id :- ReadString(o, "id");
      var name :- ReadString(o, "name");
      var description :- ReadString(o, "description");
      var date :- ReadString(o, "date");
      var location :- ReadString(o, "location");
      Ok(Activity(id, name, description, date, location))
  }

  function DecodeHotel(c: DateCodec, j: Json): (r: Result<Hotel, DecodingError>)
    ensures r.Ok? ==> j.JObject? && HotelKeys - {OptionalKey} <= j.fields.Keys
    ensures r.Ok? ==>
      && ReadString(j.fields, "id") == Ok(r.value.id)
      && ReadString(j.fields, "name") == Ok(r.value.name)
      && ReadString(j.fields, "location") == Ok(r.value.location)
      && ReadDate(c, j.fields, "checkInDate") == Ok(r.value.checkInDate)
      && ReadDate(c, j.fields, "checkOutDate") == Ok(r.value.checkOutDate)
      && ReadNumber(j.fields, "price") == Ok(r.value.price)
      && ReadOptionalString(j.fields, OptionalKey) == Ok(r.value.imageURL)
    ensures j.JNull? ==> r == Err(ValueNotFound(""))
    ensures !j.JObject? && !j.JNull? ==> r == Err(TypeMismatch(""))
  {
    if !j.JObject? then Err(ContainerMismatch(j))
    else
      var o := j.fields;
      var id :- ReadString(o, "id");
      var name :- ReadString(o, "name");
      var location :- ReadString(o, "location");
      var checkIn :- ReadDate(c, o, "checkInDate");
      var checkOut :- ReadDate(c, o, "checkOutDate");
      var price :- ReadNumber(o, "price");
      var imageURL :- ReadOptionalString(o, OptionalKey);
      Ok(Hotel(id, name, location, checkIn, checkOut, price, imageURL))
  }

  function DecodeFlight(c: DateCodec, j: Json): (r: Result<Flight, DecodingError>)
    ensures r.Ok? ==> j.JObject? && FlightKeys <= j.fields.Keys
    ensures r.Ok? ==>
      && ReadString(j.fields, "id") == Ok(r.value.id)
      && ReadString(j.fields, "airline") == Ok(r.value.airline)
      && ReadDate(c, j.fields, "departureTime") == Ok(r.value.departureTime)
      && ReadDate(c, j.fields, "arrivalTime") == Ok(r.value.arrivalTime)
      && ReadNumber(j.fields, "price") == Ok(r.value.price)
      && ReadString(j.fields, "from") == Ok(r.value.from)
      && ReadString(j.fields, "to") == Ok(r.value.to)
      && ReadString(j.fields, "duration") == Ok(r.value.duration)
    ensures j.JNull? ==> r == Err(ValueNotFound(""))
    ensures !j.JObject? && !j.JNull? ==> r == Err(TypeMismatch(""))
  {
    if !j.JObject? then Err(ContainerMismatch(j))
    else
      var o := j.fields;
      var id :- ReadString(o, "id");
      var airline :- ReadString(o, "airline");
      var departure :- ReadDate(c, o, "departureTime");
      var arrival :- ReadDate(c, o, "arrivalTime");
      var price :- ReadNumber(o, "price");
      var from :- ReadString(o, "from");
      var to :- ReadString(o, "to");
      var duration :- ReadString(o, "duration");
      Ok(Flight(id, airline, departure, arrival, price, from, to, duration))
  }

  function HotelDecoder(c: DateCodec): Json -> Result<Hotel, DecodingError> {
    j => DecodeHotel(c, j)
  }

  function FlightDecoder(c: DateCodec): Json -> Result<Flight, DecodingError> {
    j => DecodeFlight(c, j)
  }

  /** The trip's scalar properties, the first five it decodes. */
  datatype TripHeader = TripHeader(id: string, name: string, destination: string, startDate: int, endDate: int)

  /** The trip's three nested arrays, decoded next. */
  datatype TripLists = TripLists(activities: seq<Activity>, hotels: seq<Hotel>, flights: seq<Flight>)

  function DecodeTripHeader(c: DateCodec, o: map<string, Json>): Result<TripHeader, DecodingError> {
    var id :- ReadString(o, "id");
    var name :- ReadString(o, "name");
    var destination :- ReadString(o, "destination");
    var startDate :- ReadDate(c, o, "startDate");
    var endDate :- ReadDate(c, o, "endDate");
    Ok(TripHeader(id, name, destination, startDate, endDate))
  }

  function DecodeTripLists(c: DateCodec, o: map<string, Json>): Result<TripLists, DecodingError> {
    var activityItems :- ReadArray(o, "activities");
    var activities :- EachElement(activityItems, DecodeActivity);
    var hotelItems :- ReadArray(o, "hotels");
    var hotels :- EachElement(hotelItems, HotelDecoder(c));
    var flightItems :- ReadArray(o, "flights");
    var flights :- EachElement(flightItems, FlightDecoder(c));
    Ok(TripLists(activities, hotels, flights))
  }

  /** `JSONDecoder.decode(Trip.self, ...)`: only `imageURL` may be missing. The keys are read in
      declaration order: the header, then the arrays, then the image. */
  function DecodeTrip(c: DateCodec, j: Json): (r: Result<Trip, DecodingError>)
    ensures r.Ok? ==> j.JObject? && TripKeys - {OptionalKey} <= j.fields.Keys
    ensures j.JNull? ==> r == Err(ValueNotFound(""))
    ensures !j.JObject? && !j.JNull? ==> r == Err(TypeMismatch(""))
  {
    if !j.JObject? then Err(ContainerMismatch(j))
    else
      var o := j.fields;
      var h :- DecodeTripHeader(c, o);
      var l :- DecodeTripLists(c, o);
      var imageURL :- ReadOptionalString(o, OptionalKey);
      Ok(Trip(h.id, h.name, h.destination, h.startDate, h.endDate, l.activities, l.hotels, l.flights, imageURL))
  }

  function TripDecoder(c: DateCodec): Json -> Result<Trip, DecodingError> {
    j => DecodeTrip(c, j)
  }

  /** A top-level JSON array of records, as `[Trip]` and `[Flight]` decode. */
  function DecodeList<T>(j: Json, dec: Json -> Result<T, DecodingError>): (r: Result<seq<T>, DecodingError>)
    ensures r.Ok? <==> j.JArray? && forall i :: 0 <= i < |j.items| ==> dec(j.items[i]).Ok?
    ensures r.Ok? ==> |r.value| == |j.items| && forall i :: 0 <= i < |j.items| ==> dec(j.items[i]) == Ok(r.value[i])
    ensures j.JArray? && r.Err? ==> exists i :: FirstFailure(j.items, dec, i) && dec(j.items[i]) == Err(r.error)
    ensures j.JNull? ==> r == Err(ValueNotFound(""))
    ensures !j.JArray? && !j.JNull? ==> r == Err(TypeMismatch(""))
  {
    if !j.JArray? then Err(ContainerMismatch(j)) else EachElement(j.items, dec)
  }

  // ---------------------------------------------------------------------------------------
  // Round trips

  /** Decoding an encoded array gives the array back when every element round-trips. */
  lemma {:induction false} EachRoundTrip<T>(
    xs: seq<T>, enc: T -> Result<Json, EncodingError>, dec: Json -> Result<T, DecodingError>)
    requires forall x :: enc(x).Ok? ==> dec(enc(x).value) == Ok(x)
    ensures EachElement(xs, enc).Ok? ==> EachElement(EachElement(xs, enc).value, dec) == Ok(xs)
  {
    if xs != [] && EachElement(xs, enc).Ok? {
      EachRoundTrip(xs[1..], enc, dec);
      var items := EachElement(xs, enc).value;
      assert items[0] == enc(xs[0]).value;
      assert items[1..] == EachElement(xs[1..], enc).value;
      assert EachElement(items, dec) == Ok([xs[0]] + xs[1..]);
      assert [xs[0]] + xs[1..] == xs;
    }
  }

  lemma ActivityRoundTrip(a: Activity)
    ensures DecodeActivity(EncodeActivity(a)) == Ok(a)
  {
  }

  lemma HotelRoundTrip(c: DateCodec, h: Hotel)
    requires RoundTrips(c)
    ensures EncodeHotel(c, h).Ok? ==> DecodeHotel(c, EncodeHotel(c, h).value) == Ok(h)
  {
    assert c.parse(c.format(h.checkInDate)) == Some(h.checkInDate);
    assert c.parse(c.format(h.checkOutDate)) == Some(h.checkOutDate);
  }

  lemma FlightRoundTrip(c: DateCodec, f: Flight)
    requires RoundTrips(c)
    ensures EncodeFlight(c, f).Ok? ==> DecodeFlight(c, EncodeFlight(c, f).value) == Ok(f)
  {
    assert c.parse(c.format(f.departureTime)) == Some(f.departureTime);
    assert c.parse(c.format(f.arrivalTime)) == Some(f.arrivalTime);
  }

  lemma ActivitiesRoundTrip(xs: seq<Activity>)
    ensures EachElement(EachElement(xs, ActivityEncoder()).value, DecodeActivity) == Ok(xs)
  {
    forall a: Activity
      ensures ActivityEncoder()(a).Ok? ==> DecodeActivity(ActivityEncoder()(a).value) == Ok(a)
    {
      ActivityRoundTrip(a);
    }
    EachRoundTrip(xs, ActivityEncoder(), DecodeActivity);
  }

  lemma HotelsRoundTrip(c: DateCodec, xs: seq<Hotel>)
    requires RoundTrips(c)
    ensures EachElement(xs, HotelEncoder(c)).Ok? ==>
      EachElement(EachElement(xs, HotelEncoder(c)).value, HotelDecoder(c)) == Ok(xs)
  {
    forall h: Hotel
      ensures HotelEncoder(c)(h).Ok? ==> HotelDecoder(c)(HotelEncoder(c)(h).value) == Ok(h)
    {
      HotelRoundTrip(c, h);
    }
    EachRoundTrip(xs, HotelEncoder(c), HotelDecoder(c));
  }

  lemma FlightsRoundTrip(c: DateCodec, xs: seq<Flight>)
    requires RoundTrips(c)
    ensures EachElement(xs, FlightEncoder(c)).Ok? ==>
      EachElement(EachElement(xs, FlightEncoder(c)).value, FlightDecoder(c)) == Ok(xs)
  {
    forall f: Flight
      ensures FlightEncoder(c)(f).Ok? ==> FlightDecoder(c)(FlightEncoder(c)(f).value) == Ok(f)
    {
      FlightRoundTrip(c, f);
    }
    EachRoundTrip(xs, FlightEncoder(c), FlightDecoder(c));
  }

  lemma ReadDateBack(c: DateCodec, o: map<string, Json>, k: string, t: int)
    requires RoundTrips(c)
    requires k in o && o[k] == JString(c.format(t))
    ensures ReadDate(c, o, k) == Ok(t)
  {
    assert c.parse(c.format(t)) == Some(t);
  }

  /** What an encoded trip holds under each of its keys. */
  lemma EncodedTripEntries(c: DateCodec, t: Trip)
    requires EncodeTrip(c, t).Ok?
    ensures EachElement(t.hotels, HotelEncoder(c)).Ok? && EachElement(t.flights, FlightEncoder(c)).Ok?
    ensures var o := EncodeTrip(c, t).value.fields;
      && o == TripObject(c, t, EachElement(t.activities, ActivityEncoder()).value,
                         EachElement(t.hotels, HotelEncoder(c)).value, EachElement(t.flights, FlightEncoder(c)).value)
  {
  }

  lemma TripObjectEntries(c: DateCodec, t: Trip, activities: seq<Json>, hotels: seq<Json>, flights: seq<Json>)
    ensures var o := TripObject(c, t, activities, hotels, flights);
      && o["id"] == JString(t.id)
      && o["name"] == JString(t.name)
      && o["destination"] == JString(t.destination)
      && o["startDate"] == JString(c.format(t.startDate))
      && o["endDate"] == JString(c.format(t.endDate))
      && o["activities"] == JArray(activities)
      && o["hotels"] == JArray(hotels)
      && o["flights"] == JArray(flights)
      && ReadOptionalString(o, OptionalKey) == Ok(t.imageURL)
  {
  }

  lemma HeaderRoundTrip(c: DateCodec, t: Trip, activities: seq<Json>, hotels: seq<Json>, flights: seq<Json>)
    requires RoundTrips(c)
    ensures DecodeTripHeader(c, TripObject(c, t, activities, hotels, flights))
         == Ok(TripHeader(t.id, t.name, t.destination, t.startDate, t.endDate))
  {
    var o := TripObject(c, t, activities, hotels, flights);
    TripObjectEntries(c, t, activities, hotels, flights);
    ReadDateBack(c, o, "startDate", t.startDate);
    ReadDateBack(c, o, "endDate", t.endDate);
  }

  lemma ListsRoundTrip(c: DateCodec, t: Trip, o: map<string, Json>)
    requires RoundTrips(c)
    requires EachElement(t.hotels, HotelEncoder(c)).Ok? && EachElement(t.flights, FlightEncoder(c)).Ok?
    requires "activities" in o && o["activities"] == JArray(EachElement(t.activities, ActivityEncoder()).value)
    requires "hotels" in o && o["hotels"] == JArray(EachElement(t.hotels, HotelEncoder(c)).value)
    requires "flights" in o && o["flights"] == JArray(EachElement(t.flights, FlightEncoder(c)).value)
    ensures DecodeTripLists(c, o) == Ok(TripLists(t.activities, t.hotels, t.flights))
  {
    ActivitiesRoundTrip(t.activities);
    HotelsRoundTrip(c, t.hotels);
    FlightsRoundTrip(c, t.flights);
  }

  /** Decoding an encoded trip gives the same trip, nested hotels, flights and activities included. */
  lemma TripRoundTrip(c: DateCodec, t: Trip)
    requires RoundTrips(c)
    ensures EncodeTrip(c, t).Ok? ==> DecodeTrip(c, EncodeTrip(c, t).value) == Ok(t)
  {
    if EncodeTrip(c, t).Ok? {
      var activities := EachElement(t.activities, ActivityEncoder()).value;
      var hotels := EachElement(t.hotels, HotelEncoder(c)).value;
      var flights := EachElement(t.flights, FlightEncoder(c)).value;
      EncodedTripEntries(c, t);
      TripObjectEntries(c, t, activities, hotels, flights);
      HeaderRoundTrip(c, t, activities, hotels, flights);
      ListsRoundTrip(c, t, EncodeTrip(c, t).value.fields);
    }
  }

  // ---------------------------------------------------------------------------------------
  // Key discipline of decoding

  /** Two objects that hold the same values under every key in `keys`. */
  ghost predicate AgreeOn(o1: map<string, Json>, o2: map<string, Json>, keys: set<string>) {
    forall k :: k in keys ==> (k in o1 <==> k in o2) && (k in o1 ==> o1[k] == o2[k])
  }

  /** Every keyed read looks only at its own key. */
  lemma ReadsAgree(c: DateCodec, o1: map<string, Json>, o2: map<string, Json>, k: string)
    requires (k in o1 <==> k in o2) && (k in o1 ==> o1[k] == o2[k])
    ensures ReadString(o1, k) == ReadString(o2, k)
    ensures ReadDate(c, o1, k) == ReadDate(c, o2, k)
    ensures ReadArray(o1, k) == ReadArray(o2, k)
    ensures ReadOptionalString(o1, k) == ReadOptionalString(o2, k)
  {
  }

  /** The header and the arrays of a trip are read from the required keys only. */
  lemma RequiredPartsAgree(c: DateCodec, o1: map<string, Json>, o2: map<string, Json>)
    requires AgreeOn(o1, o2, TripKeys - {OptionalKey})
    ensures DecodeTripHeader(c, o1) == DecodeTripHeader(c, o2)
    ensures DecodeTripLists(c, o1) == DecodeTripLists(c, o2)
  {
    ReadsAgree(c, o1, o2, "id");
    ReadsAgree(c, o1, o2, "name");
    ReadsAgree(c, o1, o2, "destination");
    ReadsAgree(c, o1, o2, "startDate");
    ReadsAgree(c, o1, o2, "endDate");
    ReadsAgree(c, o1, o2, "activities");
    ReadsAgree(c, o1, o2, "hotels");
    ReadsAgree(c, o1, o2, "flights");
  }

  /** A trip object missing any key but `imageURL` does not decode. */
  lemma TripRequiresKeys(c: DateCodec, o: map<string, Json>, k: string)
    requires k in TripKeys - {OptionalKey} && k !in o
    ensures DecodeTrip(c, JObject(o)).Err?
  {
  }

  /** Removing `imageURL` from a decodable trip object still decodes, to the same trip without an image. */
  lemma TripImageOptional(c: DateCodec, o: map<string, Json>)
    requires DecodeTrip(c, JObject(o)).Ok?
    ensures DecodeTrip(c, JObject(o - {OptionalKey})) == Ok(DecodeTrip(c, JObject(o)).value.(imageURL := None))
  {
    var o' := o - {OptionalKey};
    assert AgreeOn(o, o', TripKeys - {OptionalKey});
    RequiredPartsAgree(c, o, o');
  }

  /** Keys outside the trip's key set are ignored. */
  lemma TripIgnoresOtherKeys(c: DateCodec, o: map<string, Json>)
    ensures DecodeTrip(c, JObject(o)) == DecodeTrip(c, JObject(map k | k in o && k in TripKeys :: o[k]))
  {
    var o' := map k | k in o && k in TripKeys :: o[k];
    assert AgreeOn(o, o', TripKeys - {OptionalKey});
    RequiredPartsAgree(c, o, o');
    ReadsAgree(c, o, o', OptionalKey);
  }
}
