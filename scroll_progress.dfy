/**
 * Arithmetic shared by the scroll-driven narrative components: the clamps they
 * apply before quantising, the centred "sticky top" rule, the re-clamp of the
 * active index when the step list changes, and the geometry that relates a
 * scroll offset to the progress value the scroll library reports.
 */
module ScrollProgress {

  function Min(a: real, b: real): real { if a <= b then a else b }
  function Max(a: real, b: real): real { if a >= b then a else b }
  function MinInt(a: int, b: int): int { if a <= b then a else b }
  function MaxInt(a: int, b: int): int { if a >= b then a else b }

  /** `Math.max(lo, Math.min(x, hi))`: the clamp applied to the raw progress. */
  function Clamp(x: real, lo: real, hi: real): (r: real)
    requires lo <= hi
    ensures lo <= r <= hi
    ensures lo <= x <= hi ==> r == x
    ensures x <= lo ==> r == lo
    ensures x >= hi ==> r == hi
  {
    Max(lo, Min(x, hi))
  }

  lemma ClampMonotone(x: real, y: real, lo: real, hi: real)
    requires lo <= hi && x <= y
    ensures Clamp(x, lo, hi) <= Clamp(y, lo, hi)
  {
  }

  /** A value in [0, 1] scaled by a non-negative integer floors into [0, m]. */
  lemma ScaledFloorBounds(c: real, m: nat)
    requires 0.0 <= c <= 1.0
    ensures 0 <= (c * m as real).Floor <= m
  {
    assert 0.0 <= c * m as real <= m as real by {
      assert c * m as real <= 1.0 * m as real;
    }
  }

  /** Scaling by a non-negative factor and flooring preserves order. */
  lemma ScaledFloorMonotone(c: real, d: real, m: nat)
    requires c <= d
    ensures (c * m as real).Floor <= (d * m as real).Floor
  {
    assert c * m as real <= d * m as real;
  }

  /** Dividing by a positive quantity and multiplying back is the identity. */
  lemma DivMulCancel(x: real, m: real)
    requires m > 0.0
    ensures (x / m) * m == x
  {
  }

  /** Multiplying by a positive quantity keeps a strict order. */
  lemma MulStrict(a: real, b: real, m: real)
    requires a > b && m > 0.0
    ensures a * m > b * m
  {
    assert (a - b) * m > 0.0;
  }

  /** A quotient of a positive value by a larger one lies strictly between 0 and 1. */
  lemma ProperFraction(x: real, m: real)
    requires 0.0 < x < m
    ensures 0.0 < x / m < 1.0
  {
    DivMulCancel(x, m);
    if x / m >= 1.0 {
      assert false;
    }
  }

  /** `floor(p * m) == i` exactly when `p` lies in [i/m, (i+1)/m). */
  lemma BucketOfFloor(p: real, m: real, i: int)
    requires m > 0.0
    ensures (p * m).Floor == i <==> i as real / m <= p < (i + 1) as real / m
  {
    assert i as real <= p * m <==> i as real / m <= p;
    assert p * m < (i + 1) as real <==> p < (i + 1) as real / m;
  }

  /**
   * `Math.max(0, Math.min(index, steps.length - 1))`: the requested step clamped
   * into the list before the scroll target is computed.
   */
  function ClampIndex(index: int, stepCount: nat): (r: nat)
    requires stepCount >= 1
    ensures r < stepCount
    ensures 0 <= index < stepCount ==> r == index
    ensures index < 0 ==> r == 0
    ensures index >= stepCount ==> r == stepCount - 1
  {
    MaxInt(0, MinInt(index, stepCount - 1))
  }

  /**
   * `Math.min(prev, Math.max(steps.length - 1, 0))`: the effect that runs when
   * the number of steps changes.
   */
  function ReclampIndex(prev: nat, stepCount: nat): (r: nat)
    ensures stepCount == 0 ==> r == 0
    ensures stepCount > 0 ==> r < stepCount
    ensures prev < stepCount ==> r == prev
    ensures prev >= stepCount > 0 ==> r == stepCount - 1
  {
    MinInt(prev, MaxInt(stepCount - 1, 0))
  }

  /**
   * `Math.max((viewportHeight - rect.height) / 2, minTop)`: the offset at which
   * a sticky panel is pinned, so that it sits centred in the viewport but never
   * closer to the top than `minTop`.
   */
  function CenteredTop(viewportHeight: real, height: real, minTop: real): (top: real)
    ensures top >= minTop
    ensures top >= (viewportHeight - height) / 2.0
    ensures top == minTop || top == (viewportHeight - height) / 2.0
  {
    Max((viewportHeight - height) / 2.0, minTop)
  }

  /**
   * When the panel fits in the viewport with `minTop` to spare above and below,
   * its centre is exactly the viewport's centre; otherwise it is pinned at `minTop`.
   */
  lemma CenteredTopCentres(viewportHeight: real, height: real, minTop: real)
    ensures height + 2.0 * minTop <= viewportHeight ==>
      CenteredTop(viewportHeight, height, minTop) + height / 2.0 == viewportHeight / 2.0
    ensures height + 2.0 * minTop > viewportHeight ==>
      CenteredTop(viewportHeight, height, minTop) == minTop
  {
  }

  /** The rectangle the section reports: `getBoundingClientRect().top` and `offsetHeight`. */
  datatype SectionBox = SectionBox(rectTop: real, offsetHeight: real)

  /** `window.scrollY` and `window.innerHeight` at the moment of the call. */
  datatype Viewport = Viewport(scrollY: real, innerHeight: real)

  /** `window.scrollY + rect.top`: the section's top in document coordinates. */
  function SectionTop(section: SectionBox, view: Viewport): (top: real)
    ensures top - view.scrollY == section.rectTop
    ensures section.rectTop == 0.0 ==> top == view.scrollY
  {
    view.scrollY + section.rectTop
  }

  /** `section.offsetHeight - window.innerHeight`: how far the section scrolls. */
  function ScrollRange(section: SectionBox, view: Viewport): (range: real)
    ensures range > 0.0 <==> section.offsetHeight > view.innerHeight
    ensures range + view.innerHeight == section.offsetHeight
  {
    section.offsetHeight - view.innerHeight
  }

  /**
   * The progress the scroll library reports for a section tracked with offsets
   * ["start start", "end end"] once the page is at `scroll`. This relation is the
   * library's and is taken as given; it is the relation `scrollToStep` inverts.
   */
  function ObservedProgress(scroll: real, section: SectionBox, view: Viewport): (p: real)
    requires ScrollRange(section, view) > 0.0
    ensures p == 0.0 <==> scroll == SectionTop(section, view)
    ensures p == 1.0 <==> scroll == SectionTop(section, view) + ScrollRange(section, view)
    ensures 0.0 <= p <= 1.0 <==>
      SectionTop(section, view) <= scroll <= SectionTop(section, view) + ScrollRange(section, view)
  {
    (scroll - SectionTop(section, view)) / ScrollRange(section, view)
  }

  /** A JavaScript number that is either finite or `+Infinity` (as after `x / 0` with `x > 0`). */
  datatype Extended = Finite(value: real) | PositiveInfinity

  /** What a `scrollToStep` call asks of the window: nothing, or `scrollTo({ top })`. */
  datatype ScrollCommand = NoScroll | ScrollTo(top: Extended)

  /** `sectionTop + targetProgress * scrollRange` in JavaScript arithmetic, for a positive range. */
  function ScrollOffset(targetProgress: Extended, section: SectionBox, view: Viewport): (top: Extended)
    requires ScrollRange(section, view) > 0.0
    ensures targetProgress.PositiveInfinity? <==> top.PositiveInfinity?
    ensures top.Finite? ==>
      ObservedProgress(top.value, section, view) == targetProgress.value
  {
    match targetProgress
    case PositiveInfinity => PositiveInfinity
    case Finite(p) =>
      var range := ScrollRange(section, view);
      var top := SectionTop(section, view) + p * range;
      assert (top - SectionTop(section, view)) / range == p by {
        assert top - SectionTop(section, view) == p * range;
      }
      Finite(top)
  }
}
