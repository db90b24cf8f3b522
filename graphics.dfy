/** Framework value types and `kotlin.math` helpers shared by the widgets. */
module Graphics {

  /** android.graphics.Rect: integer edges. */
  datatype Rect = Rect(left: int, top: int, right: int, bottom: int) {
    function Width(): int { right - left }
    function Height(): int { bottom - top }
    /** `centerX()` is `(left + right) >> 1`, halving rounded down. */
    function CenterX(): int { (left + right) / 2 }
    /** `centerY()` is `(top + bottom) >> 1`. */
    function CenterY(): int { (top + bottom) / 2 }
    /** `offset(dx, dy)` translates all four edges, keeping the size. */
    function Offset(dx: int, dy: int): (r: Rect)
      ensures r.Width() == Width() && r.Height() == Height()
      ensures r.left == left + dx && r.top == top + dy
    {
      Rect(left + dx, top + dy, right + dx, bottom + dy)
    }
  }

  /** `kotlin.math.min` on `Int`. */
  function Min(a: int, b: int): int { if a <= b then a else b }

  /** `kotlin.math.max` on `Int`. */
  function Max(a: int, b: int): int { if a >= b then a else b }

  /** `kotlin.math.abs` on `Int`. */
  function Abs(n: int): nat { if n < 0 then -n else n }

  /** `kotlin.math.abs` on `Float`. */
  function AbsReal(r: real): real { if r < 0.0 then -r else r }
}
