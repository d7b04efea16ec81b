/**
 * The classifier read as a priority-ordered rule table: eight rules, each a
 * guard on the hand and the gesture it yields, the first rule whose guard
 * holds deciding the result. The lemmas here connect the table to the
 * if-chain of `HandTracking.Classify` and derive from it the priority,
 * handedness and threshold properties of the classifier.
 */
module GestureRules {
  import opened Wrappers
  import opened Vectors
  import opened HandTracking

  const RuleCount: nat := 8

  /** The guard of rule `k`, in priority order (0 is tried first). */
  predicate Guard(k: nat, points: seq<Vec3>, norm: Vec3 -> real)
    requires Complete(points)
  {
    match k
    // a fist
    case 0 => Fist(points, norm)
    // thumb and index out, middle and pinky not raised
    case 1 => ThumbOut(points) && IndexUp(points) && !MiddleUp(points) && !PinkyUp(points)
    // thumb out, pinky raised or lowered, index and middle not raised
    case 2 => ThumbOut(points) && (PinkyUp(points) || PinkyDown(points)) && !IndexUp(points) && !MiddleUp(points)
    // thumb alone
    case 3 => ThumbOut(points) && !IndexUp(points) && !MiddleUp(points) && !PinkyUp(points)
    // index alone
    case 4 => IndexUp(points) && !MiddleUp(points) && !PinkyUp(points) && !ThumbOut(points)
    // index and middle
    case 5 => IndexUp(points) && MiddleUp(points) && !PinkyUp(points) && !ThumbOut(points)
    // pinky alone
    case 6 => PinkyUp(points) && !IndexUp(points) && !MiddleUp(points) && !ThumbOut(points)
    // thumb-index pinch, middle and pinky not raised
    case 7 => Pinch(points, norm) && !MiddleUp(points) && !PinkyUp(points)
    case _ => false
  }

  /**
   * The gesture rule `k` yields. The thumb-alone rule follows the thumb's
   * direction only; the pinky-alone rule follows the hand's geometric handedness.
   */
  function Output(k: nat, points: seq<Vec3>): Gesture
    requires Complete(points)
  {
    match k
    case 0 => Stop
    case 1 => Forward
    case 2 => Circle
    case 3 => if points[ThumbTip].x < points[ThumbBase].x then Right else Left
    case 4 => Up
    case 5 => Down
    case 6 => if IsRightHand(points) then Left else Right
    case _ => Backward
  }

  /** The result of trying rules k, k+1, ... in order. */
  function FirstMatchFrom(k: nat, points: seq<Vec3>, norm: Vec3 -> real): Option<Gesture>
    requires Complete(points)
    decreases RuleCount - k
  {
    if k >= RuleCount then None
    else if Guard(k, points, norm) then Some(Output(k, points))
    else FirstMatchFrom(k + 1, points, norm)
  }

  /** The if-chain of the classifier is the first-match reading of the rule table. */
  lemma ClassifyIsFirstMatch(points: seq<Vec3>, norm: Vec3 -> real)
    requires Complete(points)
    ensures Classify(points, norm) == FirstMatchFrom(0, points, norm)
  {
  }

  /** When rule j is the first rule from k on whose guard holds, the first match from k is j's gesture. */
  lemma {:induction false} FirstMatchAt(k: nat, j: nat, points: seq<Vec3>, norm: Vec3 -> real)
    requires Complete(points)
    requires k <= j < RuleCount
    requires Guard(j, points, norm)
    requires forall i | k <= i < j :: !Guard(i, points, norm)
    ensures FirstMatchFrom(k, points, norm) == Some(Output(j, points))
    decreases j - k
  {
    if k < j {
      FirstMatchAt(k + 1, j, points, norm);
    }
  }

  /** No gesture from k on exactly when no guard from k on holds. */
  lemma {:induction false} FirstMatchNone(k: nat, points: seq<Vec3>, norm: Vec3 -> real)
    requires Complete(points)
    ensures FirstMatchFrom(k, points, norm) == None <==> forall i | k <= i < RuleCount :: !Guard(i, points, norm)
    decreases RuleCount - k
  {
    if k < RuleCount {
      FirstMatchNone(k + 1, points, norm);
    }
  }

  /**
   * The classifier yields gesture g exactly when some rule yielding g holds
   * and no rule before it does.
   */
  lemma ClassifyIsPriorityOrdered(points: seq<Vec3>, norm: Vec3 -> real, g: Gesture)
    requires Complete(points)
    ensures Classify(points, norm) == Some(g) <==>
      exists j | 0 <= j < RuleCount ::
        Guard(j, points, norm) && Output(j, points) == g &&
        forall i | 0 <= i < j :: !Guard(i, points, norm)
  {
    ClassifyIsFirstMatch(points, norm);
    if Classify(points, norm) == Some(g) {
      FirstMatchNone(0, points, norm);
      var j := FirstGuard(points, norm);
      FirstMatchAt(0, j, points, norm);
    } else {
      forall j | 0 <= j < RuleCount && Guard(j, points, norm) && forall i | 0 <= i < j :: !Guard(i, points, norm)
        ensures Output(j, points) != g
      {
        FirstMatchAt(0, j, points, norm);
      }
    }
  }

  /** The classifier yields no gesture exactly when no rule's guard holds. */
  lemma ClassifyNoneIff(points: seq<Vec3>, norm: Vec3 -> real)
    requires Complete(points)
    ensures Classify(points, norm) == None <==> forall i | 0 <= i < RuleCount :: !Guard(i, points, norm)
  {
    ClassifyIsFirstMatch(points, norm);
    FirstMatchNone(0, points, norm);
  }

  /** The index of the first rule whose guard holds, when some guard holds. */
  function FirstGuard(points: seq<Vec3>, norm: Vec3 -> real): (j: nat)
    requires Complete(points)
    requires exists i | 0 <= i < RuleCount :: Guard(i, points, norm)
    ensures j < RuleCount && Guard(j, points, norm)
    ensures forall i | 0 <= i < j :: !Guard(i, points, norm)
  {
    FirstGuardFrom(0, points, norm)
  }

  function FirstGuardFrom(k: nat, points: seq<Vec3>, norm: Vec3 -> real): (j: nat)
    requires Complete(points)
    requires k <= RuleCount
    requires exists i | k <= i < RuleCount :: Guard(i, points, norm)
    ensures k <= j < RuleCount && Guard(j, points, norm)
    ensures forall i | k <= i < j :: !Guard(i, points, norm)
    decreases RuleCount - k
  {
    if Guard(k, points, norm) then k else FirstGuardFrom(k + 1, points, norm)
  }

  // ---------------------------------------------------------------------------
  // Properties of the classifier

  /**
   * A fist wins whatever the other landmarks are: a hand that agrees with a
   * fist on the palm centre and the four finger tips is classified STOP.
   */
  lemma FistDominates(fist: seq<Vec3>, points: seq<Vec3>, norm: Vec3 -> real)
    requires Complete(fist) && Complete(points)
    requires Fist(fist, norm)
    requires forall k | k in {PalmCenter, IndexTip, MiddleTip, RingTip, PinkyTip} :: points[k] == fist[k]
    ensures Classify(points, norm) == Some(Stop)
  {
  }

  /**
   * Under the Euclidean norm, a hand whose four finger tips all lie within
   * the fist threshold of the palm centre is a fist, and so classified STOP.
   */
  lemma TipsNearPalmIsStop(points: seq<Vec3>, norm: Vec3 -> real)
    requires Complete(points)
    requires forall k | k in {IndexTip, MiddleTip, RingTip, PinkyTip} ::
      IsLength(norm(Sub(points[k], points[PalmCenter])), Sub(points[k], points[PalmCenter])) &&
      SqNorm(Sub(points[k], points[PalmCenter])) < FistThreshold * FistThreshold
    ensures Classify(points, norm) == Some(Stop)
  {
    var palm := points[PalmCenter];
    forall k | k in {IndexTip, MiddleTip, RingTip, PinkyTip}
      ensures norm(Sub(points[k], palm)) < FistThreshold
    {
      LengthBelow(norm(Sub(points[k], palm)), Sub(points[k], palm), FistThreshold);
    }
  }

  /**
   * Thumb out with only the index raised is FORWARD, never UP; UP is only
   * returned with the thumb in and the index alone raised.
   */
  lemma ForwardBeforeUp(points: seq<Vec3>, norm: Vec3 -> real)
    requires Complete(points)
    ensures !Fist(points, norm) && ThumbOut(points) && IndexUp(points) && !MiddleUp(points) && !PinkyUp(points)
      ==> Classify(points, norm) == Some(Forward)
    ensures Classify(points, norm) == Some(Up) <==>
      !Fist(points, norm) && IndexUp(points) && !MiddleUp(points) && !PinkyUp(points) && !ThumbOut(points)
  {
    ClassifyIsPriorityOrdered(points, norm, Up);
  }

  /**
   * The thumb-alone rule: the result is RIGHT when the thumb tip is left of
   * the thumb base and LEFT otherwise, for either geometric handedness.
   */
  lemma ThumbOnlyDirection(points: seq<Vec3>, norm: Vec3 -> real)
    requires Complete(points)
    requires !Fist(points, norm) && ThumbOut(points)
    requires !IndexUp(points) && !MiddleUp(points) && !PinkyUp(points) && !PinkyDown(points)
    ensures Classify(points, norm) == Some(if points[ThumbTip].x < points[ThumbBase].x then Right else Left)
  {
  }

  /**
   * The pinky-alone rule: LEFT for a geometric right hand (thumb tip left of
   * the pinky base), RIGHT otherwise.
   */
  lemma PinkyOnlyHandedness(points: seq<Vec3>, norm: Vec3 -> real)
    requires Complete(points)
    requires !Fist(points, norm) && !ThumbOut(points)
    requires PinkyUp(points) && !IndexUp(points) && !MiddleUp(points)
    ensures Classify(points, norm) == Some(if points[ThumbTip].x < points[PinkyBase].x then Left else Right)
  {
  }

  /**
   * Geometric handedness matters to the pinky-alone rule only: moving the
   * pinky base sideways either leaves the gesture unchanged or swaps LEFT and
   * RIGHT, and the latter only when the pinky-alone rule decides both hands.
   */
  lemma HandednessOnlyAffectsPinkyRule(points: seq<Vec3>, norm: Vec3 -> real, x: real)
    requires Complete(points)
    ensures var moved := points[PinkyBase := points[PinkyBase].(x := x)];
      Classify(moved, norm) == Classify(points, norm) ||
      (Guard(6, points, norm) && Guard(6, moved, norm) &&
       forall i | 0 <= i < 6 :: !Guard(i, points, norm) && !Guard(i, moved, norm))
  {
  }

  /** The threshold predicates are strict: a reading exactly at the threshold does not count. */
  lemma StrictThresholds(tip: Vec3, base: Vec3, t: real)
    ensures tip.y == base.y - t ==> !IsFingerRaised(tip, base, t)
    ensures tip.y == base.y + t ==> !IsFingerLowered(tip, base, t)
    ensures Abs(tip.x - base.x) == t ==> !IsThumbExtended(tip, base, t)
  {
  }

  /**
   * With a non-negative threshold a finger is never both raised and lowered.
   * The bound on `t` is needed: with a negative threshold a tip level with
   * its base would be both.
   */
  lemma RaisedLoweredExclusive(tip: Vec3, base: Vec3, t: real)
    requires t >= 0.0
    ensures !(IsFingerRaised(tip, base, t) && IsFingerLowered(tip, base, t))
  {
  }

  /**
   * CIRCLE: thumb out, pinky raised or lowered, index and middle not raised,
   * no fist; and CIRCLE is returned in no other case.
   */
  lemma CircleRule(points: seq<Vec3>, norm: Vec3 -> real)
    requires Complete(points)
    ensures Classify(points, norm) == Some(Circle) <==>
      !Fist(points, norm) && ThumbOut(points) && (PinkyUp(points) || PinkyDown(points)) &&
      !IndexUp(points) && !MiddleUp(points)
  {
    ClassifyIsPriorityOrdered(points, norm, Circle);
  }

  /**
   * BACKWARD is the last resort: it is returned exactly when the thumb and
   * index tips touch, middle and pinky are not raised, and no earlier rule
   * holds. Otherwise, with no rule holding, the result is none.
   */
  lemma BackwardLastResort(points: seq<Vec3>, norm: Vec3 -> real)
    requires Complete(points)
    ensures Classify(points, norm) == Some(Backward) <==>
      Pinch(points, norm) && !MiddleUp(points) && !PinkyUp(points) &&
      forall i | 0 <= i < 7 :: !Guard(i, points, norm)
    ensures Classify(points, norm) == None <==>
      !(Pinch(points, norm) && !MiddleUp(points) && !PinkyUp(points)) &&
      forall i | 0 <= i < 7 :: !Guard(i, points, norm)
  {
    ClassifyIsPriorityOrdered(points, norm, Backward);
    ClassifyNoneIff(points, norm);
  }

  /**
   * Under the Euclidean norm the pinch test is exact on squared distances:
   * the tips touch exactly when their squared distance is below 0.08 squared.
   */
  lemma PinchBySquaredDistance(points: seq<Vec3>, norm: Vec3 -> real)
    requires Complete(points)
    requires IsLength(norm(Sub(points[ThumbTip], points[IndexTip])), Sub(points[ThumbTip], points[IndexTip]))
    ensures Pinch(points, norm) <==> SqNorm(Sub(points[ThumbTip], points[IndexTip])) < 0.0064
  {
    var v := Sub(points[ThumbTip], points[IndexTip]);
    LengthBelow(norm(v), v, TouchThreshold);
  }
}
