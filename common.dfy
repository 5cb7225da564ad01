/** Value types shared by the modules of the model. */
module Common {

  /** Python's `None` versus a present value. */
  datatype Option<+T> = None | Some(value: T)

  /** A JSON-like value, as carried by trigger payloads, pipeline variables and
      guard expressions. The engine never looks inside one. */
  datatype Value =
    | Null
    | Text(text: string)
    | Number(number: int)
    | Flag(flag: bool)
    | List(items: seq<Value>)
    | Object(fields: map<string, Value>)

  /** Concatenation regroups freely. */
  lemma AppendAssoc<T>(a: seq<T>, b: seq<T>, c: seq<T>)
    ensures (a + b) + c == a + (b + c)
  {
  }
}
