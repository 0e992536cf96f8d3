/** The minimum and maximum the page's formulas use (`Math.min`,
    `Math.max`), on integers and on reals. */
module Numeric {

  function MinInt(a: int, b: int): int { if a <= b then a else b }

  function MinReal(a: real, b: real): real { if a <= b then a else b }

  function MaxReal(a: real, b: real): real { if a >= b then a else b }
}
