/**
 * The highlight-step narrative: a section whose scroll progress selects one of
 * its steps with the even-bucket rule, each step owning a 1/n slice of the
 * progress and the progress capped at 0.9999 so that it never overflows the list.
 */
module HighlightStep {
  import opened Optional
  import opened ScrollProgress

  /** The cap applied to the raw progress before quantising. */
  const ProgressCap: real := 0.9999

  /** The spacing the source keeps as `0.001` above a step's boundary. */
  const Epsilon: real := 0.001

  /** The largest step count for which progress 1 still reaches the last step. */
  const LastStepLimit: nat := 10000

  /**
   * The index the progress handler sets:
   * `Math.min(n - 1, Math.floor(Math.max(0, Math.min(latest, 0.9999)) * n))`.
   */
  function StepIndex(latest: real, stepCount: nat): (i: nat)
    requires stepCount >= 1
    ensures i < stepCount
    ensures latest <= 0.0 ==> i == 0
    ensures latest >= ProgressCap ==> i == MinInt(stepCount - 1, (ProgressCap * stepCount as real).Floor)
  {
    var clamped := Clamp(latest, 0.0, ProgressCap);
    ScaledFloorBounds(clamped, stepCount);
    MinInt(stepCount - 1, (clamped * stepCount as real).Floor)
  }

  /** Progress 1 (or more) selects the last step exactly when there are at most 10000 steps. */
  lemma LastStepReachedIff(latest: real, stepCount: nat)
    requires stepCount >= 1 && latest >= 1.0
    ensures StepIndex(latest, stepCount) == stepCount - 1 <==> stepCount <= LastStepLimit
  {
    var n := stepCount as real;
    var f := (ProgressCap * n).Floor;
    if stepCount <= LastStepLimit {
      assert ProgressCap * n >= n - 1.0;
      assert f >= stepCount - 1;
    } else {
      assert ProgressCap * n < n - 1.0;
      assert f < stepCount - 1;
    }
  }

  /** More progress never selects an earlier step. */
  lemma StepIndexMonotone(p: real, q: real, stepCount: nat)
    requires stepCount >= 1 && p <= q
    ensures StepIndex(p, stepCount) <= StepIndex(q, stepCount)
  {
    var cp, cq := Clamp(p, 0.0, ProgressCap), Clamp(q, 0.0, ProgressCap);
    ClampMonotone(p, q, 0.0, ProgressCap);
    ScaledFloorMonotone(cp, cq, stepCount);
    assert StepIndex(p, stepCount) == MinInt(stepCount - 1, (cp * stepCount as real).Floor);
    assert StepIndex(q, stepCount) == MinInt(stepCount - 1, (cq * stepCount as real).Floor);
  }

  /** Below the cap, step `i` owns exactly the half-open bucket [i/n, (i+1)/n). */
  lemma StepOwnsBucket(p: real, stepCount: nat, i: nat)
    requires stepCount >= 1 && 0.0 <= p <= ProgressCap && i < stepCount
    ensures StepIndex(p, stepCount) == i <==>
      i as real / stepCount as real <= p < (i + 1) as real / stepCount as real
  {
    var n := stepCount as real;
    assert Clamp(p, 0.0, ProgressCap) == p;
    assert p * n < n;
    assert StepIndex(p, stepCount) == (p * n).Floor;
    BucketOfFloor(p, n, i);
  }

  /** `updateStickyTop`: the centred top of the sticky content, never above 40. */
  function StickyTop(viewportHeight: real, height: real): (top: real)
    ensures top >= 40.0
    ensures top == 40.0 || top == (viewportHeight - height) / 2.0
    ensures top >= (viewportHeight - height) / 2.0
  {
    CenteredTop(viewportHeight, height, 40.0)
  }

  /** `(clampedIndex + 0.001) / steps.length`: the progress `scrollToStep` aims for. */
  function TargetProgress(index: int, stepCount: nat): (t: real)
    requires stepCount >= 1
    ensures 0.0 < t < 1.0
    ensures t * stepCount as real == ClampIndex(index, stepCount) as real + Epsilon
  {
    var x := ClampIndex(index, stepCount) as real + Epsilon;
    ProperFraction(x, stepCount as real);
    DivMulCancel(x, stepCount as real);
    x / stepCount as real
  }

  /** Only the last step's target can exceed the cap, when there are at most 10000 steps. */
  lemma OnlyLastTargetExceedsCap(c: nat, n: nat, t: real)
    requires 1 <= n <= LastStepLimit && c < n
    requires t * n as real == c as real + Epsilon && t > ProgressCap
    ensures c == n - 1
  {
    MulStrict(t, ProgressCap, n as real);
    assert c as real + Epsilon > ProgressCap * n as real;
    assert ProgressCap * n as real >= n as real - 1.0;
    assert c as real > n as real - 1.0 - Epsilon;
  }

  /** With at most 10000 steps, the target progress quantises back to the clamped index. */
  lemma {:induction false} TargetProgressRoundTrip(index: int, stepCount: nat)
    requires 1 <= stepCount <= LastStepLimit
    ensures StepIndex(TargetProgress(index, stepCount), stepCount) == ClampIndex(index, stepCount)
  {
    var c := ClampIndex(index, stepCount);
    var t := TargetProgress(index, stepCount);
    if t <= ProgressCap {
      assert Clamp(t, 0.0, ProgressCap) == t;
      assert (c as real + Epsilon).Floor == c;
    } else {
      OnlyLastTargetExceedsCap(c, stepCount, t);
      LastStepReachedIff(1.0, stepCount);
    }
  }

  /** The bound is tight: with 20000 steps the last step's target selects the one before it. */
  lemma RoundTripFailsAboveLimit()
    ensures StepIndex(TargetProgress(19999, 20000), 20000) == 19998
  {
    var t := TargetProgress(19999, 20000);
    assert t > ProgressCap;
    assert (ProgressCap * 20000.0).Floor == 19998;
  }

  /** `scrollToStep`: the scroll command it issues. */
  function ScrollTarget(index: int, stepCount: nat, section: Option<SectionBox>, view: Viewport): (cmd: ScrollCommand)
    ensures cmd.NoScroll? <==> section.None? || stepCount == 0 || ScrollRange(section.value, view) <= 0.0
    ensures cmd.ScrollTo? ==> cmd.top.Finite?
  {
    if section.None? || stepCount == 0 || ScrollRange(section.value, view) <= 0.0 then NoScroll
    else ScrollTo(ScrollOffset(Finite(TargetProgress(index, stepCount)), section.value, view))
  }

  /** The state of one highlight-step section: its step count and active step. */
  class HighlightStepTracker {
    var stepCount: nat
    var activeIndex: nat

    /** The active index always names a step, or is 0 when there are none. */
    ghost predicate Valid()
      reads this
    {
      if stepCount == 0 then activeIndex == 0 else activeIndex < stepCount
    }

    constructor (stepCount: nat)
      ensures Valid()
      ensures this.stepCount == stepCount && activeIndex == 0
    {
      this.stepCount := stepCount;
      activeIndex := 0;
    }

    /** The `useMotionValueEvent` handler: quantise the latest raw progress. */
    method OnProgress(latest: real)
      requires Valid()
      modifies this
      ensures Valid()
      ensures stepCount == old(stepCount)
      ensures activeIndex == if stepCount == 0 then old(activeIndex) else StepIndex(latest, stepCount)
    {
      if stepCount == 0 {
        return;
      }
      activeIndex := StepIndex(latest, stepCount);
    }

    /** The effect on `steps.length`: re-clamp the active index into the new list. */
    method OnStepCountChange(newCount: nat)
      modifies this
      ensures Valid()
      ensures stepCount == newCount
      ensures activeIndex == ReclampIndex(old(activeIndex), newCount)
    {
      stepCount := newCount;
      activeIndex := ReclampIndex(activeIndex, newCount);
    }

    /**
     * `scrollToStep`: no scroll without a section, without steps or without room
     * to scroll; otherwise an offset whose observed progress selects the clamped
     * requested step again, as long as there are at most 10000 steps.
     */
    method ScrollTargetFor(index: int, section: Option<SectionBox>, view: Viewport) returns (cmd: ScrollCommand)
      ensures cmd == ScrollTarget(index, stepCount, section, view)
      ensures cmd.NoScroll? <==> section.None? || stepCount == 0 || ScrollRange(section.value, view) <= 0.0
      ensures cmd.ScrollTo? ==> cmd.top.Finite?
      ensures cmd.ScrollTo? && stepCount <= LastStepLimit ==>
        StepIndex(ObservedProgress(cmd.top.value, section.value, view), stepCount) == ClampIndex(index, stepCount)
    {
      if section.None? || stepCount == 0 {
        return NoScroll;
      }
      var box := section.value;
      if ScrollRange(box, view) <= 0.0 {
        return NoScroll;
      }
      var progress := TargetProgress(index, stepCount);
      cmd := ScrollTo(ScrollOffset(Finite(progress), box, view));
      if stepCount <= LastStepLimit {
        TargetProgressRoundTrip(index, stepCount);
      }
    }
  }
}
