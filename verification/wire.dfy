/**
 * The abstract JSON the service's coder reads and writes, the date strategy it is configured
 * with, and the keyed-container reads that Swift's synthesized `Decodable` conformances perform.
 */
module Wire {
  import opened Wrappers

  /** A Swift `Double`, kept as its IEEE-754 binary64 bit pattern; no arithmetic is done on it. */
  datatype Price = Price(bits: bv64) {

    /** False for the infinities and NaNs, whose eleven exponent bits are all set. */
    predicate IsFinite() {
      (bits >> 52) & 0x7FF != 0x7FF
    }
  }

  /** A parsed JSON value. Numbers are kept as the `Double` they denote. */
  datatype Json =
    | JNull
    | JBool(b: bool)
    | JNumber(n: Price)
    | JString(s: string)
    | JArray(items: seq<Json>)
    | JObject(fields: map<string, Json>)

  /**
   * The `.iso8601` date strategy that both the encoder and the decoder are configured with,
   * over whole-second instants: `format` writes the text of an instant, `parse` reads text back
   * and yields `None` for text that is not in the format.
   */
  datatype DateCodec = DateCodec(format: int -> string, parse: string -> Option<int>)

  /** The strategy reads back every instant it writes. */
  ghost predicate RoundTrips(c: DateCodec) {
    forall t: int :: c.parse(c.format(t)) == Some(t)
  }

  /** Swift's `DecodingError`, with the coding key at which decoding stopped ("" at top level). */
  datatype DecodingError =
    | KeyNotFound(key: string)
    | ValueNotFound(key: string)
    | TypeMismatch(key: string)
    | DataCorrupted(key: string)

  /** Swift's `EncodingError.invalidValue`, which `JSONEncoder` throws for a non-finite `Double`
      under its default non-conforming-float strategy. */
  datatype EncodingError = InvalidFloat(value: Price)

  /** What `JSONDecoder` throws when the keyed or unkeyed container a synthesized `init(from:)`
      asks for is not there: `valueNotFound` for `null`, `typeMismatch` for any other value. */
  function ContainerMismatch(j: Json): (e: DecodingError)
    ensures j.JNull? <==> e.ValueNotFound?
    ensures e.TypeMismatch? || e.ValueNotFound?
  {
    if j.JNull? then ValueNotFound("") else TypeMismatch("")
  }

  /** `decode(String.self, forKey: k)`. */
  function ReadString(o: map<string, Json>, k: string): Result<string, DecodingError> {
    if k !in o then Err(KeyNotFound(k))
    else match o[k]
      case JString(s) => Ok(s)
      case JNull => Err(ValueNotFound(k))
      case _ => Err(TypeMismatch(k))
  }

  /** `decodeIfPresent(String.self, forKey: k)`: an absent key and `null` both give `nil`. */
  function ReadOptionalString(o: map<string, Json>, k: string): Result<Option<string>, DecodingError> {
    if k !in o then Ok(None)
    else match o[k]
      case JString(s) => Ok(Some(s))
      case JNull => Ok(None)
      case _ => Err(TypeMismatch(k))
  }

  /** `decode(Date.self, forKey: k)` under the date strategy: the value must be a string that
      the strategy can read. */
  function ReadDate(c: DateCodec, o: map<string, Json>, k: string): Result<int, DecodingError> {
    if k !in o then Err(KeyNotFound(k))
    else match o[k]
      case JString(s) => (match c.parse(s) case Some(t) => Ok(t) case None => Err(DataCorrupted(k)))
      case JNull => Err(ValueNotFound(k))
      case _ => Err(TypeMismatch(k))
  }

  /** `decode(Double.self, forKey: k)`. */
  function ReadNumber(o: map<string, Json>, k: string): Result<Price, DecodingError> {
    if k !in o then Err(KeyNotFound(k))
    else match o[k]
      case JNumber(n) => Ok(n)
      case JNull => Err(ValueNotFound(k))
      case _ => Err(TypeMismatch(k))
  }

  /** The elements of the array stored under `k`, before each is decoded. */
  function ReadArray(o: map<string, Json>, k: string): Result<seq<Json>, DecodingError> {
    if k !in o then Err(KeyNotFound(k))
    else match o[k]
      case JArray(items) => Ok(items)
      case JNull => Err(ValueNotFound(k))
      case _ => Err(TypeMismatch(k))
  }

  /** The entry `encodeIfPresent` writes: nothing at all for `nil`. */
  function OptionalEntry(k: string, v: Option<string>): map<string, Json> {
    match v
    case Some(s) => map[k := JString(s)]
    case None => map[]
  }
}
