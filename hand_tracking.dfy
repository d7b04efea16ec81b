/**
 * The gesture classifier of the hand tracker and the routing of each detected
 * hand's gesture to one of the two drone slots.
 *
 * A hand is the list of landmark points reported by the hand detector
 * (21 of them: 0 is the wrist, 1-4 the thumb, 5-8 the index finger, 9-12 the
 * middle finger, 13-16 the ring finger, 17-20 the pinky). Coordinates are the
 * detector's normalised image coordinates, with y growing downwards.
 *
 * The Euclidean norm that the source takes from its numeric library is a
 * parameter `norm`; lemmas that need it to be the true length say so with
 * `IsLength` on the vectors they use.
 */
module HandTracking {
  import opened Wrappers
  import opened Vectors

  /** The command strings the classifier can return (`None` aside). */
  datatype Gesture = Stop | Forward | Circle | Left | Right | Up | Down | Backward

  /** The string by which a gesture is passed on to the simulator. */
  function Name(g: Gesture): string
  {
    match g
    case Stop => "STOP"
    case Forward => "FORWARD"
    case Circle => "CIRCLE"
    case Left => "LEFT"
    case Right => "RIGHT"
    case Up => "UP"
    case Down => "DOWN"
    case Backward => "BACKWARD"
  }

  // Landmark numbering of the hand detector.
  const LandmarkCount := 21
  const ThumbBase := 2
  const ThumbTip := 4
  const IndexBase := 5
  const IndexTip := 8
  const MiddleBase := 9
  const PalmCenter := 9
  const MiddleTip := 12
  const RingTip := 16
  const PinkyBase := 17
  const PinkyTip := 20

  // The default thresholds of the threshold predicates (all calls use them).
  const FistThreshold: real := 0.1
  const RaisedThreshold: real := 0.1
  const ThumbThreshold: real := 0.1
  const TouchThreshold: real := 0.08

  /** Every landmark the classifier reads is present. */
  predicate Complete(points: seq<Vec3>)
  {
    |points| >= LandmarkCount
  }

  function Abs(r: real): (a: real)
    ensures a >= 0.0 && (a == r || a == -r)
  {
    if r < 0.0 then -r else r
  }

  /** A finger is raised when its tip is higher in the image than its base by more than `threshold`. */
  predicate IsFingerRaised(tip: Vec3, base: Vec3, threshold: real)
  {
    tip.y < base.y - threshold
  }

  /** A finger is lowered when its tip is lower in the image than its base by more than `threshold`. */
  predicate IsFingerLowered(tip: Vec3, base: Vec3, threshold: real)
  {
    tip.y > base.y + threshold
  }

  /** The thumb is extended when its tip is sideways from its base by more than `threshold`. */
  predicate IsThumbExtended(thumbTip: Vec3, thumbBase: Vec3, threshold: real)
  {
    Abs(thumbTip.x - thumbBase.x) > threshold
  }

  /** Two tips touch when their distance is below `threshold`. */
  predicate AreFingersTouching(tip1: Vec3, tip2: Vec3, norm: Vec3 -> real, threshold: real)
  {
    norm(Sub(tip1, tip2)) < threshold
  }

  /** A fist: the mean distance from the palm centre to the four finger tips is below `threshold`. */
  predicate IsFist(points: seq<Vec3>, norm: Vec3 -> real, threshold: real)
    requires Complete(points)
  {
    var palm := points[PalmCenter];
    var total := norm(Sub(points[IndexTip], palm)) + norm(Sub(points[MiddleTip], palm))
               + norm(Sub(points[RingTip], palm)) + norm(Sub(points[PinkyTip], palm));
    total / 4.0 < threshold
  }

  /** Geometric handedness: the thumb tip lies left of the pinky base. */
  predicate IsRightHand(points: seq<Vec3>)
    requires Complete(points)
  {
    points[ThumbTip].x < points[PinkyBase].x
  }

  // The readings of one hand that the classification rules combine,
  // each one threshold predicate applied with its default threshold.

  predicate Fist(points: seq<Vec3>, norm: Vec3 -> real)
    requires Complete(points)
  {
    IsFist(points, norm, FistThreshold)
  }

  predicate ThumbOut(points: seq<Vec3>)
    requires Complete(points)
  {
    IsThumbExtended(points[ThumbTip], points[ThumbBase], ThumbThreshold)
  }

  predicate IndexUp(points: seq<Vec3>)
    requires Complete(points)
  {
    IsFingerRaised(points[IndexTip], points[IndexBase], RaisedThreshold)
  }

  predicate MiddleUp(points: seq<Vec3>)
    requires Complete(points)
  {
    IsFingerRaised(points[MiddleTip], points[MiddleBase], RaisedThreshold)
  }

  predicate PinkyUp(points: seq<Vec3>)
    requires Complete(points)
  {
    IsFingerRaised(points[PinkyTip], points[PinkyBase], RaisedThreshold)
  }

  predicate PinkyDown(points: seq<Vec3>)
    requires Complete(points)
  {
    IsFingerLowered(points[PinkyTip], points[PinkyBase], RaisedThreshold)
  }

  predicate Pinch(points: seq<Vec3>, norm: Vec3 -> real)
    requires Complete(points)
  {
    AreFingersTouching(points[ThumbTip], points[IndexTip], norm, TouchThreshold)
  }

  /**
   * The classifier: a chain of tests in fixed priority order, the first
   * test that holds deciding the gesture.
   */
  function Classify(points: seq<Vec3>, norm: Vec3 -> real): (r: Option<Gesture>)
    requires Complete(points)
    ensures r == Some(Stop) <==> Fist(points, norm)
  {
    var isRightHand := IsRightHand(points);
    if Fist(points, norm) then Some(Stop)
    else if ThumbOut(points) && IndexUp(points) && !MiddleUp(points) && !PinkyUp(points) then
      Some(Forward)
    else if ThumbOut(points) && (PinkyUp(points) || PinkyDown(points)) && !IndexUp(points) && !MiddleUp(points) then
      Some(Circle)
    else if ThumbOut(points) && !IndexUp(points) && !MiddleUp(points) && !PinkyUp(points) then
      var thumbPointsLeft := points[ThumbTip].x < points[ThumbBase].x;
      if isRightHand then
        (if thumbPointsLeft then Some(Right) else Some(Left))
      else
        (if thumbPointsLeft then Some(Right) else Some(Left))
    else if IndexUp(points) && !MiddleUp(points) && !PinkyUp(points) && !ThumbOut(points) then
      Some(Up)
    else if IndexUp(points) && MiddleUp(points) && !PinkyUp(points) && !ThumbOut(points) then
      Some(Down)
    else if PinkyUp(points) && !IndexUp(points) && !MiddleUp(points) && !ThumbOut(points) then
      if !isRightHand then Some(Right) else Some(Left)
    else if Pinch(points, norm) && !MiddleUp(points) && !PinkyUp(points) then
      Some(Backward)
    else
      None
  }

  // ---------------------------------------------------------------------------
  // Routing of the detected hands to the two drone slots

  /** One hand as reported by the detector: its camera handedness label and its landmarks. */
  datatype Detection = Detection(handedness: string, points: seq<Vec3>)

  /** The gestures of the user's left hand (red drone) and right hand (blue drone). */
  datatype HandGestures = HandGestures(left: Option<Gesture>, right: Option<Gesture>)

  /** Classifying a hand with too few landmarks fails with an index error. */
  datatype ShapeError = MissingLandmarks(hand: nat, found: nat)

  /**
   * The camera image is mirrored: the hand labelled "Right" is the user's
   * left hand and drives the left (red) slot; any other label drives the right one.
   */
  predicate DrivesLeftSlot(handedness: string)
  {
    handedness == "Right"
  }

  /**
   * The gesture that ends up in one slot: that of the last hand in detection
   * order whose label routes it there, or none when no hand does.
   */
  function SlotGesture(hands: seq<Detection>, leftSlot: bool, norm: Vec3 -> real): Option<Gesture>
    requires forall h | h in hands :: Complete(h.points)
  {
    if hands == [] then None
    else
      var last := hands[|hands| - 1];
      if DrivesLeftSlot(last.handedness) == leftSlot then Classify(last.points, norm)
      else SlotGesture(hands[..|hands| - 1], leftSlot, norm)
  }

  /**
   * The slot holds the gesture of the last hand routed to it: if hand k is
   * routed there and no later hand is, the slot holds hand k's gesture.
   */
  lemma {:induction false} SlotHoldsLastRoutedHand(hands: seq<Detection>, leftSlot: bool, norm: Vec3 -> real, k: nat)
    requires forall h | h in hands :: Complete(h.points)
    requires k < |hands| && DrivesLeftSlot(hands[k].handedness) == leftSlot
    requires forall j | k < j < |hands| :: DrivesLeftSlot(hands[j].handedness) != leftSlot
    ensures SlotGesture(hands, leftSlot, norm) == Classify(hands[k].points, norm)
    decreases |hands|
  {
    if k < |hands| - 1 {
      var init := hands[..|hands| - 1];
      assert forall j | k < j < |init| :: init[j] == hands[j];
      SlotHoldsLastRoutedHand(init, leftSlot, norm, k);
    }
  }

  /** A slot no hand is routed to holds no gesture. */
  lemma {:induction false} UnroutedSlotIsEmpty(hands: seq<Detection>, leftSlot: bool, norm: Vec3 -> real)
    requires forall h | h in hands :: Complete(h.points)
    requires forall j | 0 <= j < |hands| :: DrivesLeftSlot(hands[j].handedness) != leftSlot
    ensures SlotGesture(hands, leftSlot, norm) == None
    decreases |hands|
  {
    if hands != [] {
      var init := hands[..|hands| - 1];
      assert forall j | 0 <= j < |init| :: init[j] == hands[j];
      UnroutedSlotIsEmpty(init, leftSlot, norm);
    }
  }

  /**
   * A later hand overwrites its own slot and leaves the other slot as it was.
   */
  lemma LaterHandOverwrites(hands: seq<Detection>, hand: Detection, norm: Vec3 -> real)
    requires forall h | h in hands :: Complete(h.points)
    requires Complete(hand.points)
    ensures var both := hands + [hand];
      var mine := DrivesLeftSlot(hand.handedness);
      SlotGesture(both, mine, norm) == Classify(hand.points, norm) &&
      SlotGesture(both, !mine, norm) == SlotGesture(hands, !mine, norm)
  {
  }

  /**
   * Classifies every detected hand in order and stores its gesture in the
   * slot its label selects, a later hand overwriting an earlier one. A hand
   * with fewer than 21 landmarks makes the classifier fail, and the whole
   * call fails with it.
   */
  method DetectGestures(hands: seq<Detection>, norm: Vec3 -> real) returns (r: Result<HandGestures, ShapeError>)
    ensures r.Failure? <==> exists k | 0 <= k < |hands| :: !Complete(hands[k].points)
    ensures r.Failure? ==>
      var k := r.error.hand;
      k < |hands| && r.error.found == |hands[k].points| && !Complete(hands[k].points) &&
      forall j | 0 <= j < k :: Complete(hands[j].points)
    ensures r.Success? ==>
      r.value == HandGestures(SlotGesture(hands, true, norm), SlotGesture(hands, false, norm))
  {
    var left: Option<Gesture> := None;
    var right: Option<Gesture> := None;
    var i := 0;
    while i < |hands|
      invariant 0 <= i <= |hands|
      invariant forall j | 0 <= j < i :: Complete(hands[j].points)
      invariant left == SlotGesture(hands[..i], true, norm)
      invariant right == SlotGesture(hands[..i], false, norm)
    {
      var hand := hands[i];
      if |hand.points| < LandmarkCount {
        return Failure(MissingLandmarks(i, |hand.points|));
      }
      var gesture := Classify(hand.points, norm);
      if hand.handedness == "Right" {
        left := gesture;
      } else {
        right := gesture;
      }
      assert hands[..i + 1][..i] == hands[..i];
      i := i + 1;
    }
    assert hands[..i] == hands;
    r := Success(HandGestures(left, right));
  }
}
