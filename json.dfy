/** Values shared by the whole model: bytes, optional values, and JSON as the
    Go package encoding/json hands it to the client after parsing. */
module Json {

  newtype byte = b: int | 0 <= b < 256

  datatype Option<+T> = None | Some(value: T)

  /** A parsed JSON value, as encoding/json decodes it into `interface{}`.
      Numbers keep their literal text: nothing in the model computes with them,
      and none is converted to float64, so the range check encoding/json makes
      when it does so is not modelled. */
  datatype Json =
    | JNull
    | JBool(b: bool)
    | JNumber(literal: string)
    | JString(s: string)
    | JArray(items: seq<Json>)
    | JObject(fields: map<string, Json>)

  /** A `*json.RawMessage`: the undecoded bytes of one JSON value, together with
      the value that decoding those bytes gives. */
  datatype Raw = Raw(text: seq<byte>, value: Json)

  /** The outcome of `json.Unmarshal(bytes, &map[string]*json.RawMessage{})`.
      A JSON `null` leaves the map nil, and every lookup in a nil map misses, so
      it behaves exactly like `Object(map[])`; anything else that is not a JSON
      object (an array, a scalar, malformed text) is `NotObject`. */
  datatype Body = Object(fields: map<string, Raw>) | NotObject

  /** Go's `json.Unmarshal(raw, &s)` with `s` a string: a JSON string gives its
      value, `null` leaves the zero value, anything else is a type error. */
  function StringValue(v: Json): (r: Option<string>)
    ensures r.Some? <==> (v.JString? || v.JNull?)
    ensures v.JString? ==> r == Some(v.s)
    ensures v.JNull? ==> r == Some("")
  {
    match v
    case JString(s) => Some(s)
    case JNull => Some("")
    case _ => None
  }

  /** A string-typed member `key` of a decoded object: absent keys keep the
      zero value "". */
  function StringField(fields: map<string, Raw>, key: string): Option<string>
  {
    if key in fields then StringValue(fields[key].value) else Some("")
  }
}
