/** An optional value: JavaScript's `undefined` and Python's masked values. */
module Wrappers {

  datatype Option<+T> = None | Some(value: T)

  /** How JavaScript renders a value that may be `undefined` when it is
      concatenated into a string. */
  function Show(o: Option<string>): (s: string)
    ensures o.Some? ==> s == o.value
    ensures o.None? ==> s == "undefined"
  {
    match o
    case Some(v) => v
    case None => "undefined"
  }
}
