/** JavaScript value conventions the console relies on: optional fields and
    the `||` fallback on strings, which treats `undefined` and `''` alike. */
module Values {

  /** An optional field of a record: `undefined`/`null` or a value. */
  datatype Option<+T> = None | Some(value: T) {

    /** The value, or a default when absent. */
    function GetOr(default: T): T {
      match this
      case Some(v) => v
      case None => default
    }
  }

  /** Whether an optional string is truthy in JavaScript: present and non-empty. */
  predicate Truthy(s: Option<string>) {
    s.Some? && s.value != ""
  }

  /** `s || fallback` for an optional string. */
  function StrOr(s: Option<string>, fallback: string): (r: string)
    ensures Truthy(s) ==> r == s.value
    ensures !Truthy(s) ==> r == fallback
  {
    if Truthy(s) then s.value else fallback
  }

  /** `b || false`, `!!b`: an optional flag is truthy only when present and true. */
  predicate IsTrue(b: Option<bool>) {
    b == Some(true)
  }

  /** `b !== undefined ? b : true`: an explicit `false` survives, absence means true. */
  function DefaultTrue(b: Option<bool>): (r: bool)
    ensures b.Some? ==> r == b.value
    ensures b.None? ==> r
  {
    b.GetOr(true)
  }

  /** `n || fallback` for an optional number: `undefined` and `0` both fall back. */
  function IntOr(n: Option<int>, fallback: int): (r: int)
    ensures n.Some? && n.value != 0 ==> r == n.value
    ensures n.None? || n.value == 0 ==> r == fallback
  {
    if n.Some? && n.value != 0 then n.value else fallback
  }
}
