/**
 * The few pieces of Python value semantics the spectrum viewer depends on:
 * `None`, list indexing (negative indices count from the end, anything else
 * raises IndexError) and the truthiness of an optional number.
 */
module Python {

  /** `None` or a value. */
  datatype Option<+T> = None | Some(value: T)

  /** True when Python's `s[k]` accepts `k`. */
  predicate IsIndex<T>(s: seq<T>, k: int) {
    -|s| <= k < |s|
  }

  /** Python's `s[k]` on a list; `None` stands for the IndexError. */
  function At<T>(s: seq<T>, k: int): (r: Option<T>)
    ensures r.Some? <==> IsIndex(s, k)
    ensures r.Some? ==> r.value in s && r.value == s[k % |s|]
  {
    if 0 <= k < |s| then Some(s[k])
    else if -|s| <= k < 0 then Some(s[|s| + k])
    else None
  }

  /** `if x:` on a number that may be None: None and zero are false. */
  predicate Truthy(x: Option<real>) {
    x.Some? && x.value != 0.0
  }
}
