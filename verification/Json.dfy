/** JSON values as the store sees them after parsing. */
module Json {
  import opened Wrappers

  datatype Value =
    | Null
    | Bool(flag: bool)
    | Number(number: int)
    | Text(text: string)
    | Array(items: seq<Value>)
    | Object(fields: map<string, Value>)

  /** Reading a field: absent on anything that is not an object. */
  function Get(v: Value, key: string): Option<Value> {
    if v.Object? && key in v.fields then Some(v.fields[key]) else None
  }

  /** Reading a text field: absent when the field holds anything but text. */
  function GetText(v: Value, key: string): Option<string> {
    match Get(v, key)
    case Some(Text(t)) => Some(t)
    case _ => None
  }

  /** A field reads as a text exactly when it is there and holds that text. */
  lemma GetTextExactly(v: Value, key: string, t: string)
    ensures GetText(v, key) == Some(t) <==> v.Object? && key in v.fields && v.fields[key] == Text(t)
  {
  }

  /** Assigning to a field of an object in place. */
  function Put(v: Value, key: string, field: Value): Value
    requires v.Object?
  {
    Object(v.fields[key := field])
  }
}
