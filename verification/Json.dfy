/** JSON documents after parsing: what encoding/json reports to the harness about a
    payload or an output line, without the bytes. */
module Json {
  import opened Wrappers

  /** Fractions, booleans and arrays are `Other`: no field the harness reads accepts them. */
  datatype Value = Null | Text(text: string) | Number(number: int) | Object(fields: map<string, Value>) | Other

  datatype Document = Malformed | Parsed(value: Value)

  /** A string field of a decoded struct. A missing or null field leaves the empty
      string behind; a field of another type is a decoding error. */
  function TextField(fields: map<string, Value>, name: string): Option<string> {
    if name !in fields then Some("")
    else match fields[name]
      case Null => Some("")
      case Text(s) => Some(s)
      case _ => None
  }
}
