/** The gesture signal adapter of `src/App.tsx`: the hand-tracker result callback
    turns each detected hand into a smoothed pinch distance, a hysteresis-latched
    chaos flag and a smoothed pointer. */
module Gesture {
  import opened MathUtils

  datatype Option<T> = None | Some(value: T)

  /** Starting value of the smoothed pinch distance. */
  const InitialDistance: real := 0.15
  /** Easing factor of the pinch distance per hand result. */
  const DistanceFactor: real := 0.1
  /** Smoothed distances above this switch to chaos. */
  const ChaosAbove: real := 0.25
  /** Smoothed distances below this switch back to the tree. */
  const TreeBelow: real := 0.10
  /** Easing factor of the pointer per hand result. */
  const PointerFactor: real := 0.05

  /** The landmarks the callback reads from the first detected hand, in
      normalised image coordinates: 4 (thumb tip), 8 (index fingertip) and
      9 (base of the middle finger). */
  datatype Landmarks = Landmarks(thumbTip: Vec2, indexTip: Vec2, middleBase: Vec2)

  /** A detected hand, with the result of the square root the callback takes of
      the squared distance between the index fingertip and the thumb tip. */
  datatype HandFrame = HandFrame(landmarks: Landmarks, rawDistance: real)
  {
    /** `rawDistance` is the Euclidean distance from landmark 4 to landmark 8. */
    predicate IsPinchDistance()
    {
      var dx := landmarks.indexTip.x - landmarks.thumbTip.x;
      var dy := landmarks.indexTip.y - landmarks.thumbTip.y;
      rawDistance >= 0.0 && rawDistance * rawDistance == dx * dx + dy * dy
    }
  }

  /** Everything the adapter keeps between results. */
  datatype GestureState = GestureState(smoothedDist: real, isChaos: bool, handPos: Vec2)

  function Initial(): GestureState
  {
    GestureState(InitialDistance, false, Vec2(0.0, 0.0))
  }

  predicate InUnitSquare(p: Vec2)
  {
    0.0 <= p.x <= 1.0 && 0.0 <= p.y <= 1.0
  }

  predicate InPointerBox(p: Vec2)
  {
    -1.0 <= p.x <= 1.0 && -1.0 <= p.y <= 1.0
  }

  /** Image coordinates to the centred, y-flipped pointer range. The unit square
      lands in [-1, 1]^2, and the map is undone by halving and shifting back. */
  function Remap(p: Vec2): (r: Vec2)
    ensures InUnitSquare(p) ==> InPointerBox(r)
    ensures p == Vec2(r.x / 2.0 + 0.5, 0.5 - r.y / 2.0)
  {
    Vec2((p.x - 0.5) * 2.0, (p.y - 0.5) * -2.0)
  }

  /** The hysteresis latch applied to the smoothed distance `d`. */
  function Latch(wasChaos: bool, d: real): bool
  {
    if d > ChaosAbove then true
    else if d < TreeBelow then false
    else wasChaos
  }

  /** The pointer eased toward the remapped landmark, coordinate by coordinate. */
  function EasePointer(pos: Vec2, target: Vec2): Vec2
  {
    Vec2(Lerp(pos.x, target.x, PointerFactor), Lerp(pos.y, target.y, PointerFactor))
  }

  /** One invocation of the result callback. A result without a hand changes
      nothing. With a hand, the distance moves a tenth of the way to the raw
      one, the latch reads the smoothed (not the raw) distance, and the pointer
      moves 5% of the way toward the remapped landmark 9 without leaving
      [-1, 1]^2. */
  function Step(s: GestureState, results: Option<HandFrame>): (r: GestureState)
    ensures results.None? ==> r == s
    ensures results.Some? ==>
      var raw := results.value.rawDistance;
      && Between(s.smoothedDist, raw, r.smoothedDist)
      && Abs(r.smoothedDist - raw) == 0.9 * Abs(s.smoothedDist - raw)
      && (s.smoothedDist != raw ==> Abs(r.smoothedDist - raw) < Abs(s.smoothedDist - raw))
    ensures results.Some? ==>
      && (r.smoothedDist > ChaosAbove ==> r.isChaos)
      && (r.smoothedDist < TreeBelow ==> !r.isChaos)
      && (TreeBelow <= r.smoothedDist <= ChaosAbove ==> r.isChaos == s.isChaos)
    ensures results.Some? ==>
      var target := Remap(results.value.landmarks.middleBase);
      && Between(s.handPos.x, target.x, r.handPos.x)
      && Between(s.handPos.y, target.y, r.handPos.y)
      && Abs(r.handPos.x - target.x) == 0.95 * Abs(s.handPos.x - target.x)
      && Abs(r.handPos.y - target.y) == 0.95 * Abs(s.handPos.y - target.y)
    ensures InPointerBox(s.handPos) && (results.Some? ==> InUnitSquare(results.value.landmarks.middleBase))
      ==> InPointerBox(r.handPos)
  {
    match results
    case None => s
    case Some(hand) =>
      var d := Lerp(s.smoothedDist, hand.rawDistance, DistanceFactor);
      var target := Remap(hand.landmarks.middleBase);
      LerpTowards(s.smoothedDist, hand.rawDistance, DistanceFactor);
      LerpTowards(s.handPos.x, target.x, PointerFactor);
      LerpTowards(s.handPos.y, target.y, PointerFactor);
      GestureState(d, Latch(s.isChaos, d), EasePointer(s.handPos, target))
  }

  /** The state after a sequence of results, the last one applied last. */
  function Run(s: GestureState, results: seq<Option<HandFrame>>): GestureState
  {
    if results == [] then s
    else Step(Run(s, results[..|results| - 1]), results[|results| - 1])
  }

  /** A session in which the tracker never reports a hand keeps its state:
      the mode stays as it was and the pointer does not move. */
  lemma {:induction false} AbsentHandFreezes(s: GestureState, results: seq<Option<HandFrame>>)
    requires forall i :: 0 <= i < |results| ==> results[i].None?
    ensures Run(s, results) == s
  {
    if results != [] {
      AbsentHandFreezes(s, results[..|results| - 1]);
    }
  }

  /** While landmark 9 stays inside the image, the pointer never leaves [-1, 1]^2. */
  lemma {:induction false} PointerStaysInBox(s: GestureState, results: seq<Option<HandFrame>>)
    requires InPointerBox(s.handPos)
    requires forall i :: 0 <= i < |results| && results[i].Some? ==>
      InUnitSquare(results[i].value.landmarks.middleBase)
    ensures InPointerBox(Run(s, results).handPos)
  {
    if results != [] {
      PointerStaysInBox(s, results[..|results| - 1]);
    }
  }

  /** The dead zone: when the smoothed distance starts in [0.10, 0.25] and every
      raw distance lies there too, the smoothed distance never leaves it and the
      mode never flips, in either direction. */
  lemma {:induction false} DeadZoneHoldsMode(s: GestureState, results: seq<Option<HandFrame>>)
    requires TreeBelow <= s.smoothedDist <= ChaosAbove
    requires forall i :: 0 <= i < |results| && results[i].Some? ==>
      TreeBelow <= results[i].value.rawDistance <= ChaosAbove
    ensures TreeBelow <= Run(s, results).smoothedDist <= ChaosAbove
    ensures Run(s, results).isChaos == s.isChaos
  {
    if results != [] {
      DeadZoneHoldsMode(s, results[..|results| - 1]);
    }
  }

  /** Holding one hand result, the smoothed distance after n results is exactly
      n eases with factor 0.1 toward that raw distance. */
  lemma {:induction false} HeldHandEases(s: GestureState, hand: HandFrame, results: seq<Option<HandFrame>>)
    requires forall i :: 0 <= i < |results| ==> results[i] == Some(hand)
    ensures Run(s, results).smoothedDist == Ease(s.smoothedDist, hand.rawDistance, DistanceFactor, |results|)
  {
    if results != [] {
      HeldHandEases(s, hand, results[..|results| - 1]);
    }
  }

  /** A pinch held open wider than 0.25 eventually switches to chaos and stays
      there, and one held closed below 0.10 eventually switches to the tree. */
  lemma HeldPinchSettles(s: GestureState, hand: HandFrame) returns (n: nat)
    requires hand.rawDistance > ChaosAbove || hand.rawDistance < TreeBelow
    ensures forall results: seq<Option<HandFrame>> ::
      |results| >= n && (forall i :: 0 <= i < |results| ==> results[i] == Some(hand)) ==>
      Run(s, results).isChaos == (hand.rawDistance > ChaosAbove)
  {
    var raw := hand.rawDistance;
    var eps := if raw > ChaosAbove then raw - ChaosAbove else TreeBelow - raw;
    var m := EaseConverges(s.smoothedDist, raw, DistanceFactor, eps);
    n := m + 1;
    forall results: seq<Option<HandFrame>> |
      |results| >= n && (forall i :: 0 <= i < |results| ==> results[i] == Some(hand))
      ensures Run(s, results).isChaos == (raw > ChaosAbove)
    {
      HeldHandEases(s, hand, results);
      assert |results| >= m;
      assert Abs(Run(s, results).smoothedDist - raw) < eps;
    }
  }

  /** A fixture hand whose pinch is `raw` wide, for the scenarios below. */
  function PinchFrame(raw: real): Option<HandFrame>
  {
    Some(HandFrame(Landmarks(Vec2(0.5, 0.5), Vec2(0.5 + raw, 0.5), Vec2(0.5, 0.5)), raw))
  }

  /** Every fixture is a real pinch: its raw distance is the distance from the
      thumb tip to the index fingertip, so the scenarios below use inputs the
      tracker can produce. */
  lemma PinchFrameIsPinch(raw: real)
    requires raw >= 0.0
    ensures PinchFrame(raw).value.IsPinchDistance()
    ensures PinchFrame(raw).value.rawDistance == raw
  {
  }

  /** The latch reads the smoothed value: a first raw pinch of 0.30, above the
      chaos threshold, lifts the smoothed distance only to 0.165 and does not
      switch to chaos. */
  lemma RawSpikeDoesNotLatch()
    ensures PinchFrame(0.30).value.IsPinchDistance()
    ensures Step(Initial(), PinchFrame(0.30)) == GestureState(0.165, false, Vec2(0.0, 0.0))
  {
  }

  /** The raw distances 0.05, 0.05, 0.30, 0.30, 0.05 from the initial state give
      the smoothed distances 0.14, 0.131, 0.1479, 0.16311, 0.151799; all of them
      lie in the dead zone, so the mode stays on the tree throughout. */
  lemma PinchScenario()
    ensures
      var s1 := Step(Initial(), PinchFrame(0.05));
      var s2 := Step(s1, PinchFrame(0.05));
      var s3 := Step(s2, PinchFrame(0.30));
      var s4 := Step(s3, PinchFrame(0.30));
      var s5 := Step(s4, PinchFrame(0.05));
      && s1.smoothedDist == 0.14 && s2.smoothedDist == 0.131 && s3.smoothedDist == 0.1479
      && s4.smoothedDist == 0.16311 && s5.smoothedDist == 0.151799
      && !s1.isChaos && !s2.isChaos && !s3.isChaos && !s4.isChaos && !s5.isChaos
  {
  }

  /** The adapter's session state, updated in place by the result callback. */
  class GestureTracker {
    var smoothedDist: real
    var isChaos: bool
    var handPos: Vec2

    /** The smoothed distance is a running blend of non-negative pinch
        distances, so it is never negative; no other contract depends on it. */
    ghost predicate Valid()
      reads this
    {
      smoothedDist >= 0.0
    }

    function State(): GestureState
      reads this
    {
      GestureState(smoothedDist, isChaos, handPos)
    }

    constructor ()
      ensures Valid() && State() == Initial()
      ensures smoothedDist == 0.15 && !isChaos && handPos == Vec2(0.0, 0.0)
    {
      smoothedDist := InitialDistance;
      isChaos := false;
      handPos := Vec2(0.0, 0.0);
    }

    /** The `onResults` callback. */
    method OnResults(results: Option<HandFrame>)
      requires Valid()
      requires results.Some? ==> results.value.IsPinchDistance()
      modifies this
      ensures Valid()
      ensures State() == Step(old(State()), results)
    {
      if results.Some? {
        var hand := results.value;
        smoothedDist := Lerp(smoothedDist, hand.rawDistance, DistanceFactor);
        if smoothedDist > ChaosAbove {
          isChaos := true;
        } else if smoothedDist < TreeBelow {
          isChaos := false;
        }
        var target := Remap(hand.landmarks.middleBase);
        handPos := Vec2(Lerp(handPos.x, target.x, PointerFactor), Lerp(handPos.y, target.y, PointerFactor));
      }
    }
  }
}
