/** Small value types shared by every component of the model. */
module Common {

  /** A value that may be `null` or `undefined` in the program. */
  datatype Option<+T> = None | Some(value: T)

  /** The outcome of an operation that may throw. */
  datatype Result<+T> = Ok(value: T) | Err(error: string)

  /** The `??` operator on optional values. */
  function OrElse<T>(preferred: Option<T>, fallback: Option<T>): Option<T> {
    if preferred.Some? then preferred else fallback
  }

  function Min(a: int, b: int): int { if a < b then a else b }

  function Max(a: int, b: int): int { if a < b then b else a }

  /** The characters matched by `\s` and removed by `trim`. */
  predicate Space(c: char) {
    var n := c as int;
    9 <= n <= 13 || n == 32 || n == 0xA0 || n == 0x1680 || 0x2000 <= n <= 0x200A || n == 0x2028 || n == 0x2029
    || n == 0x202F || n == 0x205F || n == 0x3000 || n == 0xFEFF
  }

  /** Nothing is left of the text after `trim`. */
  predicate Blank(s: string) { forall i :: 0 <= i < |s| ==> Space(s[i]) }

  /** The text is neither missing nor empty, that is, it counts as true. */
  predicate NonEmpty(s: Option<string>) { s.Some? && s.value != "" }

  /** Where the first element with a property is, or the length. */
  function FirstIndex<T>(s: seq<T>, p: T -> bool): (i: nat)
    ensures i <= |s|
    ensures i < |s| ==> p(s[i])
    ensures forall k :: 0 <= k < i ==> !p(s[k])
  {
    if |s| == 0 || p(s[0]) then 0 else 1 + FirstIndex(s[1..], p)
  }
}
