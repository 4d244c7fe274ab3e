/** Lane geometry and the steering controller: discrete lane changes with a
    per-direction debounce, swipe steering, and the continuous slide of the
    car toward its target position. */
module Lanes {
  import opened Difficulty

  const LaneCount: int := 3
  const RoadPadding: real := 40.0
  const PlayerWidth: real := 48.0
  const PlayerHeight: real := 90.0
  /** Gap between the car's bottom edge and the bottom of the canvas. */
  const PlayerBottomGap: real := 30.0
  /** Rate, per second, at which the car closes the gap to its target. */
  const SteerSpeed: real := 10.0
  /** Horizontal drag, in px, beyond which a swipe steers. */
  const SwipeThreshold: real := 30.0

  /** Math.max(lo, Math.min(hi, v)) on lane indices. */
  function ClampInt(v: int, lo: int, hi: int): (r: int)
    ensures lo <= hi ==> lo <= r <= hi
    ensures lo <= v <= hi ==> r == v
    ensures v < lo ==> r == lo
    ensures lo <= hi && hi < v ==> r == hi
  {
    var m := if v <= hi then v else hi;
    if lo >= m then lo else m
  }

  /** Width of one lane: the canvas width without the two road paddings,
      shared evenly. */
  function LaneWidthFor(canvasWidth: real): (w: real)
    ensures RoadPadding + LaneCount as real * w == canvasWidth - RoadPadding
  {
    (canvasWidth - RoadPadding * 2.0) / LaneCount as real
  }

  /** Left edge of a car of the player's width centred on lane l. */
  function LaneToX(l: int, laneWidth: real): real {
    RoadPadding + l as real * laneWidth + laneWidth / 2.0 - PlayerWidth / 2.0
  }

  /** The player's car is centred on its lane, lanes lie one lane width apart,
      and when a lane is at least as wide as the car, the car stays on the
      road. */
  lemma LaneGeometry(l: int, laneWidth: real)
    ensures LaneToX(l, laneWidth) + PlayerWidth / 2.0 == RoadPadding + (l as real + 0.5) * laneWidth
    ensures LaneToX(l + 1, laneWidth) == LaneToX(l, laneWidth) + laneWidth
    ensures 0 <= l < LaneCount && laneWidth >= PlayerWidth ==>
              RoadPadding <= LaneToX(l, laneWidth) &&
              LaneToX(l, laneWidth) + PlayerWidth <= RoadPadding + LaneCount as real * laneWidth
  {
    assert (l + 1) as real * laneWidth == l as real * laneWidth + laneWidth;
    if 0 <= l < LaneCount && laneWidth >= PlayerWidth {
      assert l == 0 || l == 1 || l == 2;
    }
  }

  /** The lane after one discrete steer by delta (-1 left, +1 right). */
  function StepLane(lane: int, delta: int): (r: int)
    ensures 0 <= r < LaneCount
    ensures 0 <= lane + delta < LaneCount ==> r == lane + delta
    ensures lane + delta < 0 ==> r == 0
    ensures lane + delta >= LaneCount ==> r == LaneCount - 1
  {
    ClampInt(lane + delta, 0, LaneCount - 1)
  }

  /** A key-triggered steer: nothing happens while the direction's handled
      flag is set, otherwise one steer. */
  function Debounced(lane: int, handled: bool, delta: int): int {
    if handled then lane else StepLane(lane, delta)
  }

  /** The lane after the key has been held for n frames, the flag timer not
      having fired in between (the flag is set after the first frame). */
  function HoldFor(lane: int, handled: bool, n: nat, delta: int): int
    decreases n
  {
    if n == 0 then lane else HoldFor(Debounced(lane, handled, delta), true, n - 1, delta)
  }

  /** A held key changes the lane at most once per debounce window: holding
      it for any number of frames has the effect of the first frame alone. */
  lemma {:induction false} HeldKeySteersOnce(lane: int, handled: bool, n: nat, delta: int)
    requires n >= 1
    ensures HoldFor(lane, handled, n, delta) == Debounced(lane, handled, delta)
    decreases n
  {
    if n > 1 {
      HeldKeySteersOnce(Debounced(lane, handled, delta), true, n - 1, delta);
    }
  }

  /** The steer a swipe of horizontal extent dx triggers. */
  function SwipeDelta(dx: real): (d: int)
    ensures -1 <= d <= 1
    ensures d == -1 <==> dx < -SwipeThreshold
    ensures d == 1 <==> dx > SwipeThreshold
  {
    if dx < -SwipeThreshold then -1 else if dx > SwipeThreshold then 1 else 0
  }

  /** One frame of the car's slide toward targetX. */
  function Slide(x: real, targetX: real, dt: real): real {
    x + (targetX - x) * Clamp(dt * SteerSpeed, 0.0, 1.0)
  }

  function Abs(v: real): real { if v < 0.0 then -v else v }

  lemma SignOfProduct(g: real, f: real)
    requires 0.0 <= f
    ensures g >= 0.0 ==> g * f >= 0.0
    ensures g <= 0.0 ==> g * f <= 0.0
    ensures g != 0.0 && f > 0.0 ==> g * f != 0.0
  {
  }

  /** The slide never overshoots: the new position lies between the old one
      and the target, and the gap does not grow. Within the frame-delta cap
      it never reaches a target it did not start at; only a factor of at
      least 1 would snap. */
  lemma SlideApproaches(x: real, targetX: real, dt: real)
    ensures Min(x, targetX) <= Slide(x, targetX, dt) <= Max(x, targetX)
    ensures Abs(targetX - Slide(x, targetX, dt)) <= Abs(targetX - x)
    ensures dt <= MaxDt && x != targetX ==> Slide(x, targetX, dt) != targetX
    ensures dt * SteerSpeed >= 1.0 ==> Slide(x, targetX, dt) == targetX
    ensures dt <= 0.0 ==> Slide(x, targetX, dt) == x
  {
    var f := Clamp(dt * SteerSpeed, 0.0, 1.0);
    var g, h := targetX - x, 1.0 - f;
    assert 0.0 <= f <= 1.0 && h >= 0.0;
    assert Slide(x, targetX, dt) - x == g * f;
    assert targetX - Slide(x, targetX, dt) == g * h;
    SignOfProduct(g, f);
    SignOfProduct(g, h);
    if dt <= MaxDt {
      assert f <= 0.5 && h > 0.0;
    }
  }
}
