/**
 * The sticky-side narrative: every step card watches its own scroll progress
 * and claims the media panel once it is more than 35% of the way through the
 * viewport; the media panel shows the claimed step and slides the others away.
 */
module StickySide {
  import opened ScrollProgress

  /** The card progress above which a card claims the media panel. */
  const ActivationThreshold: real := 0.35

  /** How far an inactive panel is shifted: up for earlier steps, down for later ones. */
  const InactiveShift: int := 24

  /** `updateStickyTop`: the centred top of the media frame, never negative. */
  function StickyTop(viewportHeight: real, height: real): (top: real)
    ensures top >= 0.0
    ensures top == 0.0 || top == (viewportHeight - height) / 2.0
    ensures top >= (viewportHeight - height) / 2.0
  {
    CenteredTop(viewportHeight, height, 0.0)
  }

  /**
   * `latest > 0.35` in `StepCard`: whether this progress makes the card call
   * `onActive`. A card scrolled fully through activates; one not yet a third in
   * does not.
   */
  predicate Activates(latest: real)
    ensures latest >= 1.0 ==> Activates(latest)
    ensures latest * 3.0 <= 1.0 ==> !Activates(latest)
  {
    latest > ActivationThreshold
  }

  /** How the media panel of step `index` is placed while `activeIndex` is shown. */
  datatype Panel = Panel(isActive: bool, offset: int)

  /** The panel of step `index`: centred when active, shifted by 24 before or after it. */
  function PanelFor(index: nat, activeIndex: nat): (p: Panel)
    ensures p.isActive <==> index == activeIndex
    ensures p.isActive ==> p.offset == 0
    ensures index < activeIndex ==> p.offset == -InactiveShift
    ensures index > activeIndex ==> p.offset == InactiveShift
  {
    var isActive := index == activeIndex;
    var inactiveOffset := if index < activeIndex then -InactiveShift else InactiveShift;
    Panel(isActive, if isActive then 0 else inactiveOffset)
  }

  /** The media panels of all `stepCount` steps, in order; none when the list is empty. */
  function Panels(stepCount: nat, activeIndex: nat): (ps: seq<Panel>)
    ensures |ps| == stepCount
    ensures forall i :: 0 <= i < stepCount ==> ps[i] == PanelFor(i, activeIndex)
  {
    seq(stepCount, i requires 0 <= i => PanelFor(i, activeIndex))
  }

  /** The number of active panels in a list. */
  function ActiveCount(ps: seq<Panel>): nat {
    if ps == [] then 0 else (if ps[|ps| - 1].isActive then 1 else 0) + ActiveCount(ps[..|ps| - 1])
  }

  /** Exactly one panel is active when the active index names a step, and none otherwise. */
  lemma {:induction false} ExactlyOneActivePanel(stepCount: nat, activeIndex: nat)
    ensures ActiveCount(Panels(stepCount, activeIndex)) == if activeIndex < stepCount then 1 else 0
  {
    if stepCount > 0 {
      var ps := Panels(stepCount, activeIndex);
      assert ps[..stepCount - 1] == Panels(stepCount - 1, activeIndex);
      ExactlyOneActivePanel(stepCount - 1, activeIndex);
    }
  }

  /** Panel offsets never decrease along the list: earlier steps above, later ones below. */
  lemma PanelOffsetsOrdered(stepCount: nat, activeIndex: nat, i: nat, j: nat)
    requires i <= j < stepCount
    ensures Panels(stepCount, activeIndex)[i].offset <= Panels(stepCount, activeIndex)[j].offset
  {
  }

  /**
   * The index state of one sticky-side section. Unlike the timeline there is no
   * re-clamp: only a card's `onActive` callback ever changes the active index.
   */
  class StickySideTracker {
    var stepCount: nat
    var activeIndex: nat

    /** The active index names one of the rendered steps. */
    ghost predicate InRange()
      reads this
    {
      activeIndex < stepCount
    }

    constructor (stepCount: nat)
      ensures this.stepCount == stepCount && activeIndex == 0
      ensures stepCount > 0 ==> InRange()
    {
      this.stepCount := stepCount;
      activeIndex := 0;
    }

    /**
     * The progress handler of the card at `index`: above the threshold the card
     * calls `onActive`, which sets the active index; at or below it nothing
     * happens, so a card that drops back never deactivates itself.
     */
    method OnCardProgress(index: nat, latest: real)
      requires index < stepCount
      modifies this
      ensures stepCount == old(stepCount)
      ensures activeIndex == if Activates(latest) then index else old(activeIndex)
      ensures old(InRange()) ==> InRange()
      ensures Activates(latest) ==> InRange()
    {
      if latest > ActivationThreshold {
        activeIndex := index;
      }
    }

    /**
     * A new step list: the active index is left as it is, so it stays in range
     * exactly when it is below the new count.
     */
    method OnStepsReplaced(newCount: nat)
      modifies this
      ensures stepCount == newCount && activeIndex == old(activeIndex)
      ensures InRange() <==> old(activeIndex) < newCount
    {
      stepCount := newCount;
    }
  }
}
