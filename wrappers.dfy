/** Option and Result values standing for JavaScript's `null`/`undefined` and for
    thrown errors or `{ data, error }` replies of the database client. */
module Wrappers {

  datatype Option<+T> = None | Some(value: T) {
    function GetOr(default: T): T {
      match this
      case Some(v) => v
      case None => default
    }
  }

  /** JavaScript truthiness of an optional string: present and not empty. */
  predicate Truthy(o: Option<string>) {
    o.Some? && o.value != ""
  }

  /** JavaScript truthiness of an optional number: present and not zero. */
  predicate TruthyInt(o: Option<int>) {
    o.Some? && o.value != 0
  }

  /** `o || fallback` for an optional number. */
  function IntOr(o: Option<int>, fallback: int): (r: int)
    ensures TruthyInt(o) ==> r == o.value
    ensures !TruthyInt(o) ==> r == fallback
  {
    if TruthyInt(o) then o.value else fallback
  }

  /** `o || fallback` for an optional string. */
  function StringOr(o: Option<string>, fallback: string): (r: string)
    ensures Truthy(o) ==> r == o.value
    ensures !Truthy(o) ==> r == fallback
  {
    if Truthy(o) then o.value else fallback
  }

  /** `Err` carries the message of the thrown `Error`, or of the database error. */
  datatype Result<+T> = Ok(value: T) | Err(msg: string)
}
