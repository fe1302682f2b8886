/** The `Math.min` and `Math.max` of two integers, shared by the route and the page. */
module IntMath {
  function Min(a: int, b: int): int { if a <= b then a else b }

  function Max(a: int, b: int): int { if a <= b then b else a }
}
