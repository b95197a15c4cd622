/**
 * The media pane of the two map-route timeline demos (horizontal and vertical):
 * the scroll progress handed to the map is always clamped into [0, 1].
 */
module MapRouteTimeline {

  /** `clampProgress`: `Math.min(1, Math.max(0, value))`. */
  function ClampProgress(value: real): (p: real)
    ensures 0.0 <= p <= 1.0
    ensures 0.0 <= value <= 1.0 ==> p == value
    ensures value < 0.0 ==> p == 0.0
    ensures value > 1.0 ==> p == 1.0
  {
    var atLeastZero := if 0.0 >= value then 0.0 else value;
    if 1.0 <= atLeastZero then 1.0 else atLeastZero
  }

  /** Clamping twice is clamping once. */
  lemma ClampProgressIdempotent(value: real)
    ensures ClampProgress(ClampProgress(value)) == ClampProgress(value)
  {
  }

  /** More scroll never gives less progress. */
  lemma ClampProgressMonotone(a: real, b: real)
    requires a <= b
    ensures ClampProgress(a) <= ClampProgress(b)
  {
  }

  /** `MapRouteTimelineMedia`'s `progress` state. */
  class TimelineMedia {
    var progress: real

    ghost predicate Valid()
      reads this
    {
      0.0 <= progress <= 1.0
    }

    /** The lazy initial state from the motion value's current reading. */
    constructor (current: real)
      ensures progress == ClampProgress(current)
      ensures Valid()
    {
      progress := ClampProgress(current);
    }

    /** The effect on a new motion value and the `change` event both store the clamped reading. */
    method OnProgress(latest: real)
      modifies this
      ensures progress == ClampProgress(latest)
      ensures Valid()
      ensures 0.0 <= latest <= 1.0 ==> progress == latest
    {
      progress := ClampProgress(latest);
    }
  }
}
