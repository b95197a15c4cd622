/**
 * The timeline narrative: a section whose scroll progress selects one of its
 * steps with the inclusive-endpoint rule, so that progress 0 selects the first
 * step and progress 1 the last.
 */
module Timeline {
  import opened Optional
  import opened ScrollProgress

  /** The spacing the source keeps as `0.001` above a step's boundary. */
  const Epsilon: real := 0.001

  /**
   * The index the progress handler sets:
   * `Math.min(n - 1, Math.floor(Math.max(0, Math.min(latest, 1)) * (n - 1)))`.
   */
  function StepIndex(latest: real, stepCount: nat): (i: nat)
    requires stepCount >= 1
    ensures i < stepCount
    ensures latest <= 0.0 ==> i == 0
    ensures latest >= 1.0 ==> i == stepCount - 1
  {
    var clamped := Clamp(latest, 0.0, 1.0);
    ScaledFloorBounds(clamped, stepCount - 1);
    MinInt(stepCount - 1, (clamped * (stepCount - 1) as real).Floor)
  }

  /** More progress never selects an earlier step. */
  lemma StepIndexMonotone(p: real, q: real, stepCount: nat)
    requires stepCount >= 1 && p <= q
    ensures StepIndex(p, stepCount) <= StepIndex(q, stepCount)
  {
    var m: nat := stepCount - 1;
    var cp, cq := Clamp(p, 0.0, 1.0), Clamp(q, 0.0, 1.0);
    ClampMonotone(p, q, 0.0, 1.0);
    ScaledFloorMonotone(cp, cq, m);
    assert StepIndex(p, stepCount) == MinInt(m, (cp * m as real).Floor);
    assert StepIndex(q, stepCount) == MinInt(m, (cq * m as real).Floor);
  }

  /**
   * With at least two steps and progress in [0, 1), step `i` owns exactly the
   * half-open bucket [i/(n-1), (i+1)/(n-1)).
   */
  lemma StepOwnsBucket(p: real, stepCount: nat, i: nat)
    requires stepCount >= 2 && 0.0 <= p < 1.0 && i < stepCount
    ensures StepIndex(p, stepCount) == i <==>
      i as real / (stepCount - 1) as real <= p < (i + 1) as real / (stepCount - 1) as real
  {
    var m := (stepCount - 1) as real;
    assert Clamp(p, 0.0, 1.0) == p;
    assert p * m < m by {
      assert m > 0.0;
    }
    assert StepIndex(p, stepCount) == (p * m).Floor;
    BucketOfFloor(p, m, i);
  }

  /** `minTop`: the vertical layout pins at 0, the horizontal one at 40. */
  function MinTop(isVertical: bool): real {
    if isVertical then 0.0 else 40.0
  }

  /** `updateStickyTop`: the centred top of the sticky element, never above `minTop`. */
  function StickyTop(viewportHeight: real, height: real, isVertical: bool): (top: real)
    ensures top >= MinTop(isVertical)
    ensures top == MinTop(isVertical) || top == (viewportHeight - height) / 2.0
    ensures top >= (viewportHeight - height) / 2.0
  {
    CenteredTop(viewportHeight, height, MinTop(isVertical))
  }

  /**
   * `(clampedIndex + 0.001) / (steps.length - 1)` as the code computes it: with
   * a single step the denominator is 0 and JavaScript yields `+Infinity`.
   */
  function AsWrittenTargetProgress(index: int, stepCount: nat): (t: Extended)
    requires stepCount >= 1
    ensures t.PositiveInfinity? <==> stepCount == 1
  {
    if stepCount == 1 then PositiveInfinity
    else Finite((ClampIndex(index, stepCount) as real + Epsilon) / (stepCount - 1) as real)
  }

  /** `scrollToStep` as written: the offset handed to `window.scrollTo`, if any. */
  function AsWrittenScrollTarget(index: int, stepCount: nat, section: Option<SectionBox>, view: Viewport): (cmd: ScrollCommand)
    ensures cmd.NoScroll? <==>
      section.None? || stepCount == 0 || ScrollRange(section.value, view) <= 0.0
    ensures cmd.ScrollTo? ==> (cmd.top.PositiveInfinity? <==> stepCount == 1)
    ensures cmd.ScrollTo? && stepCount >= 2 ==>
      cmd.top.Finite? &&
      ObservedProgress(cmd.top.value, section.value, view) ==
        (ClampIndex(index, stepCount) as real + Epsilon) / (stepCount - 1) as real
  {
    if section.None? || stepCount == 0 || ScrollRange(section.value, view) <= 0.0 then NoScroll
    else ScrollTo(ScrollOffset(AsWrittenTargetProgress(index, stepCount), section.value, view))
  }

  /** For a single-step timeline the code asks the window to scroll to `+Infinity`. */
  lemma AsWrittenSingleStepScrollsToInfinity(index: int, section: SectionBox, view: Viewport)
    requires ScrollRange(section, view) > 0.0
    ensures AsWrittenScrollTarget(index, 1, Some(section), view) == ScrollTo(PositiveInfinity)
  {
  }

  /**
   * The target progress with the denominator kept positive: identical to the
   * code whenever there are two or more steps, and inside the section for one.
   */
  function TargetProgress(index: int, stepCount: nat): (t: real)
    requires stepCount >= 1
    ensures 0.0 < t
    ensures stepCount >= 2 ==> AsWrittenTargetProgress(index, stepCount) == Finite(t)
  {
    (ClampIndex(index, stepCount) as real + Epsilon) / MaxInt(stepCount - 1, 1) as real
  }

  /** The target progress quantises back to the clamped index, for every step count. */
  lemma {:induction false} TargetProgressRoundTrip(index: int, stepCount: nat)
    requires stepCount >= 1
    ensures StepIndex(TargetProgress(index, stepCount), stepCount) == ClampIndex(index, stepCount)
  {
    var c := ClampIndex(index, stepCount);
    var t := TargetProgress(index, stepCount);
    if stepCount == 1 {
      assert StepIndex(t, 1) == 0;
    } else if c == stepCount - 1 {
      var m := (stepCount - 1) as real;
      assert t == (m + Epsilon) / m;
      DivMulCancel(m + Epsilon, m);
      if t < 1.0 {
        MulStrict(1.0, t, m);
        assert false;
      }
    } else {
      var m := (stepCount - 1) as real;
      var x := c as real + Epsilon;
      assert t == x / m;
      assert x < m;
      ProperFraction(x, m);
      DivMulCancel(x, m);
      assert Clamp(t, 0.0, 1.0) == t;
      assert (t * m).Floor == c;
    }
  }

  /** `scrollToStep` with the corrected denominator: the scroll command it issues. */
  function ScrollTarget(index: int, stepCount: nat, section: Option<SectionBox>, view: Viewport): (cmd: ScrollCommand)
    ensures stepCount >= 2 ==> cmd == AsWrittenScrollTarget(index, stepCount, section, view)
  {
    if section.None? || stepCount == 0 || ScrollRange(section.value, view) <= 0.0 then NoScroll
    else ScrollTo(ScrollOffset(Finite(TargetProgress(index, stepCount)), section.value, view))
  }

  /**
   * The state of one timeline: the number of steps it was rendered with and the
   * index of the step shown as active.
   */
  class TimelineTracker {
    var stepCount: nat
    var activeIndex: nat

    /** The active index always names a step, or is 0 when there are none. */
    ghost predicate Valid()
      reads this
    {
      if stepCount == 0 then activeIndex == 0 else activeIndex < stepCount
    }

    constructor (stepCount: nat)
      ensures Valid()
      ensures this.stepCount == stepCount && activeIndex == 0
    {
      this.stepCount := stepCount;
      activeIndex := 0;
    }

    /** The `useMotionValueEvent` handler: quantise the latest raw progress. */
    method OnProgress(latest: real)
      requires Valid()
      modifies this
      ensures Valid()
      ensures stepCount == old(stepCount)
      ensures activeIndex == if stepCount == 0 then old(activeIndex) else StepIndex(latest, stepCount)
    {
      if stepCount == 0 {
        return;
      }
      activeIndex := StepIndex(latest, stepCount);
    }

    /** The effect on `steps.length`: re-clamp the active index into the new list. */
    method OnStepCountChange(newCount: nat)
      modifies this
      ensures Valid()
      ensures stepCount == newCount
      ensures activeIndex == ReclampIndex(old(activeIndex), newCount)
    {
      stepCount := newCount;
      activeIndex := ReclampIndex(activeIndex, newCount);
    }

    /**
     * `scrollToStep`: no scroll without a section, without steps or without room
     * to scroll; otherwise an offset whose observed progress selects the clamped
     * requested step again.
     */
    method ScrollTargetFor(index: int, section: Option<SectionBox>, view: Viewport) returns (cmd: ScrollCommand)
      ensures cmd == ScrollTarget(index, stepCount, section, view)
      ensures cmd.NoScroll? <==> section.None? || stepCount == 0 || ScrollRange(section.value, view) <= 0.0
      ensures cmd.ScrollTo? ==> cmd.top.Finite?
      ensures cmd.ScrollTo? ==>
        StepIndex(ObservedProgress(cmd.top.value, section.value, view), stepCount) == ClampIndex(index, stepCount)
    {
      if section.None? || stepCount == 0 {
        return NoScroll;
      }
      var box := section.value;
      if ScrollRange(box, view) <= 0.0 {
        return NoScroll;
      }
      var progress := TargetProgress(index, stepCount);
      cmd := ScrollTo(ScrollOffset(Finite(progress), box, view));
      TargetProgressRoundTrip(index, stepCount);
    }
  }
}
