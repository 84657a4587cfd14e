/** Python values the client passes around: optional strings and how Python renders them. */
module Values {

  /** An optional value: Python's `None` or a present value. */
  datatype Option<+T> = None | Some(value: T)

  /** What `"{}".format(o)` produces for an optional string: `None` renders as the text "None". */
  function Show(o: Option<string>): (s: string)
    ensures o.Some? ==> s == o.value
    ensures s == "None" <==> o == None || o == Some("None")
  {
    match o
    case None => "None"
    case Some(s) => s
  }

  /** Python truthiness of an optional string: neither `None` nor the empty string. */
  function Truthy(o: Option<string>): (b: bool)
    ensures !b <==> o == None || o == Some("")
  {
    o.Some? && o.value != ""
  }
}
