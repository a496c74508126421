/** The JSON values that `json.load` can hand to the deserializer. Objects
    nested below the top two levels are not needed and are not modelled. */
module Json {

  datatype Value =
    | Null
    | Boolean(b: bool)
    | Integer(n: int)       // a JSON number without fraction or exponent
    | Number(x: real)       // any other JSON number (a Python float)
    | Text(s: string)
    | Array(items: seq<Value>)

  /** A JSON object, as a Python dict from string keys to values. */
  type Object = map<string, Value>
}
