/** The values the programs exchange as JSON request bodies and keep in
    Firestore documents, with the two conversions the programs apply to
    them: Python's str() and JavaScript's truthiness. */
module Json {
  import opened Text
  import opened Numbers

  /** A JSON scalar as Python's json module and Firestore hand it over. */
  datatype JsonValue = JString(s: string) | JBool(b: bool) | JInt(i: int) | JNull

  /** A JSON object, or the fields of a Firestore document. */
  type JsonObject = map<string, JsonValue>

  /** Python's str() of a decoded JSON value, which is also what an f-string
      interpolates. A string is itself, and the text of an integer is one
      float() reads back as that integer. */
  function PyStr(v: JsonValue): (s: string)
    ensures v.JString? ==> s == v.s
    ensures v.JInt? ==> PyFloat(s) == Some(Decimal(v.i, 0))
  {
    match v
    case JString(s) => s
    case JBool(b) => if b then "True" else "False"
    case JInt(i) => PyFloatOfIntToString(i); IntToString(i)
    case JNull => "None"
  }

  /** JavaScript's truthiness of a property read: None stands for a missing
      property, whose value is undefined. The falsy values are exactly
      undefined, null, false, 0 and the empty string. */
  predicate Truthy(v: Option<JsonValue>)
    ensures !Truthy(v) <==> v in {None, Some(JNull), Some(JBool(false)), Some(JInt(0)), Some(JString(""))}
  {
    match v
    case None => false
    case Some(JString(s)) => s != ""
    case Some(JBool(b)) => b
    case Some(JInt(i)) => i != 0
    case Some(JNull) => false
  }

  /** A property read on a JSON object. */
  function Get(o: JsonObject, key: string): Option<JsonValue>
  {
    if key in o then Some(o[key]) else None
  }

  /** One sensor reading as the server stores it: an ISO-8601 timestamp and
      the value float() read. */
  datatype Reading = Reading(timestamp: string, value: Decimal)

  /** The fields of a sensor document; None stands for a document without a
      `readings` field. */
  datatype SensorDoc = SensorDoc(readings: Option<seq<Reading>>)
}
