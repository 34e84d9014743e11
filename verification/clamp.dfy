/** The offset clamp applied while the sheet is being dragged:
    `Math.max(0, Math.min(sheetHeight, y))` over exact reals. */
module Clamp {

  function Min(a: real, b: real): real {
    if a <= b then a else b
  }

  function Max(a: real, b: real): real {
    if a >= b then a else b
  }

  /** Distance between two points on the vertical axis. */
  function Dist(a: real, b: real): real {
    if a >= b then a - b else b - a
  }

  /** Clamps a proposed sheet offset `y` into `[0, height]`. The upper bound is
      applied first and the lower bound last, so a negative `height` yields 0. */
  function ClampOffset(height: real, y: real): (r: real)
    ensures 0.0 <= r
    ensures height >= 0.0 ==> r <= height
    ensures 0.0 <= y <= height ==> r == y
    ensures height >= 0.0 ==> forall z :: 0.0 <= z <= height ==> Dist(r, y) <= Dist(z, y)
    ensures height < 0.0 ==> r == 0.0
  {
    Max(0.0, Min(height, y))
  }

  /** Clamping twice is clamping once: an offset already in range is kept. */
  lemma ClampIdempotent(height: real, y: real)
    ensures ClampOffset(height, ClampOffset(height, y)) == ClampOffset(height, y)
  {
  }

  /** The clamp is monotone: a lower pointer position never gives a larger offset. */
  lemma ClampMonotone(height: real, y1: real, y2: real)
    requires y1 <= y2
    ensures ClampOffset(height, y1) <= ClampOffset(height, y2)
  {
  }
}
