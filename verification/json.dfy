/** The JSON values exchanged with the calendar service. */
module JsonValue {

  /** A JSON value; numbers are not inspected anywhere in the model, so integers suffice. */
  datatype Json =
    | JNull
    | JBool(b: bool)
    | JNumber(n: int)
    | JString(str: string)
    | JArray(elems: seq<Json>)
    | JObject(fields: map<string, Json>)

  /** A JSON object as a dictionary from member names to values. */
  type Object = map<string, Json>
}
