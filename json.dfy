/** The JSON values that the core hands to the vector store. */
module Json {

  import opened Wrappers

  datatype JsonValue = JNull | JBool(flag: bool) | JString(text: string)

  /** An optional string as JSON: `None` becomes `null`, a present string stays as it is. */
  function OptionalText(v: Option<string>): (j: JsonValue)
    ensures j == JNull <==> v.None?
    ensures v.Some? ==> j == JString(v.value)
  {
    match v
    case None => JNull
    case Some(s) => JString(s)
  }

  /** Distinct optional strings stay distinct as JSON: `None` and every string are told apart. */
  lemma OptionalTextInjective(u: Option<string>, v: Option<string>)
    ensures OptionalText(u) == OptionalText(v) <==> u == v
  {
  }
}
