/** Small shared vocabulary: an optional value (the source's `null`) and integer helpers. */
module Common {

  /** A value that may be absent, standing for a JavaScript `null`/`undefined` field. */
  datatype Option<+T> = None | Some(value: T)

  function Max(a: int, b: int): (m: int)
    ensures m >= a && m >= b
    ensures m == a || m == b
  {
    if a >= b then a else b
  }

  function Min(a: int, b: int): (m: int)
    ensures m <= a && m <= b
    ensures m == a || m == b
  {
    if a <= b then a else b
  }

  /** The sign of an integer: -1, 0 or 1. */
  function Sign(x: int): (s: int)
    ensures s == 0 <==> x == 0
    ensures s == 1 <==> x > 0
    ensures s == -1 <==> x < 0
  {
    if x > 0 then 1 else if x < 0 then -1 else 0
  }
}
