/** The item width the grid mode hands to its adapter once the sheet has been laid out:
    the measured width, less a margin on each side scaled by the display density, shared by
    three columns. Java arithmetic is written out: integer division truncates toward zero,
    and so does the final cast of the floating-point quotient. */
module GridSizing {

  /** The toolkit's baseline density, in dots per inch. */
  const DENSITY_DEFAULT: int := 160

  /** The number of columns of the grid. */
  const COLUMNS: int := 3

  /** The unscaled margin, in pixels, on each side. */
  const BASE_MARGIN: int := 24

  /** Division rounding toward zero, as Java's `/` on ints and its `(int)` cast do. */
  function TruncDiv(a: int, b: int): (q: int)
    requires b > 0
    ensures a >= 0 ==> 0 <= a - q * b < b
    ensures a < 0 ==> -b < a - q * b <= 0
  {
    if a >= 0 then a / b else -((-a) / b)
  }

  /** The margin on each side: the base margin times the density ratio, the ratio being an
      integer division. */
  function GridMargin(densityDpi: int): int {
    BASE_MARGIN * TruncDiv(densityDpi, DENSITY_DEFAULT)
  }

  /** The width of one grid item for a view of the given measured width. */
  function GridItemWidth(measuredWidth: int, densityDpi: int): int {
    TruncDiv(measuredWidth - 2 * GridMargin(densityDpi), COLUMNS)
  }

  lemma {:induction false} TruncDivMonotone(a1: int, a2: int, b: int)
    requires b > 0 && a1 <= a2
    ensures TruncDiv(a1, b) <= TruncDiv(a2, b)
  {
    var q1, q2 := TruncDiv(a1, b), TruncDiv(a2, b);
    if q1 > q2 {
      // q1 * b is then at least a whole b above q2 * b, which the remainders do not allow
      MulStep(q2, q1, b);
      assert false;
    }
  }

  lemma {:induction false} MulStep(lo: int, hi: int, b: int)
    requires lo < hi && b > 0
    ensures hi * b >= lo * b + b
  {
    assert hi * b - lo * b == (hi - lo) * b;
    assert (hi - lo) * b >= b by { MulAtLeast(hi - lo, b); }
  }

  lemma MulAtLeast(k: int, b: int)
    requires k >= 1 && b > 0
    ensures k * b >= b
  {
  }

  /** The margin never shrinks as the density grows. */
  lemma GridMarginMonotone(d1: int, d2: int)
    requires d1 <= d2
    ensures GridMargin(d1) <= GridMargin(d2)
  {
    TruncDivMonotone(d1, d2, DENSITY_DEFAULT);
  }

  /** So, for a fixed measured width, the item width never grows as the density grows. */
  lemma GridItemWidthMonotone(measuredWidth: int, d1: int, d2: int)
    requires d1 <= d2
    ensures GridItemWidth(measuredWidth, d2) <= GridItemWidth(measuredWidth, d1)
  {
    GridMarginMonotone(d1, d2);
    TruncDivMonotone(measuredWidth - 2 * GridMargin(d2), measuredWidth - 2 * GridMargin(d1), COLUMNS);
  }

  /** But not strictly: the density ratio is an integer division, so the margin is a step
      function. Every density below the baseline gets no margin, 160 to 319 dpi get 24 pixels. */
  lemma GridMarginSteps(densityDpi: int)
    ensures 0 <= densityDpi < DENSITY_DEFAULT ==> GridMargin(densityDpi) == 0
    ensures DENSITY_DEFAULT <= densityDpi < 2 * DENSITY_DEFAULT ==> GridMargin(densityDpi) == BASE_MARGIN
    ensures GridItemWidth(720, 160) == GridItemWidth(720, 240) == 224
  {
  }

  /** A view narrower than its margins gets a negative width, rounded toward zero. */
  lemma NarrowView()
    ensures GridItemWidth(1, 160) == -15
    ensures GridItemWidth(0, 160) == -16
  {
  }
}
