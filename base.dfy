/** Small shared vocabulary: an optional value (JavaScript's `undefined`
    or a missing key) and integer minimum and maximum (`Math.min`,
    `Math.max`). */
module Base {

  datatype Option<+T> = None | Some(value: T)

  function Min(a: int, b: int): (r: int)
    ensures r <= a && r <= b && (r == a || r == b)
  {
    if a <= b then a else b
  }

  function Max(a: int, b: int): (r: int)
    ensures r >= a && r >= b && (r == a || r == b)
  {
    if a >= b then a else b
  }
}
