/**
 * The hand tracker hands its gestures to the simulator as command strings.
 * This module connects the two vocabularies: every gesture name the
 * classifier can produce selects the branch of the simulator's step that its
 * meaning calls for.
 */
module GestureCommands {
  import opened Vectors
  import opened HandTracking
  import opened Simulator

  /** The six gestures that move a drone along one axis. */
  predicate IsStraight(g: Gesture)
  {
    g == Up || g == Down || g == Left || g == Right || g == Forward || g == Backward
  }

  /**
   * Only the `Circle` gesture takes the simulator's circle branch; each
   * straight-line gesture's name selects the unit move along its own axis in
   * its own direction; every other name selects no move.
   */
  lemma GestureNamesDriveStep(g: Gesture)
    ensures Name(g) == "CIRCLE" <==> g == Circle
    ensures g == Up ==> Direction(Name(g)) == Vec3(0.0, 1.0, 0.0)
    ensures g == Down ==> Direction(Name(g)) == Vec3(0.0, -1.0, 0.0)
    ensures g == Left ==> Direction(Name(g)) == Vec3(-1.0, 0.0, 0.0)
    ensures g == Right ==> Direction(Name(g)) == Vec3(1.0, 0.0, 0.0)
    ensures g == Forward ==> Direction(Name(g)) == Vec3(0.0, 0.0, 1.0)
    ensures g == Backward ==> Direction(Name(g)) == Vec3(0.0, 0.0, -1.0)
    ensures !IsStraight(g) ==> Direction(Name(g)) == Zero
  {
  }

  /**
   * Each straight-line gesture's name selects a move of unit length, so
   * before clipping the drone moves by exactly the speed.
   */
  lemma StraightNamesAreUnit(g: Gesture)
    requires IsStraight(g)
    ensures SqNorm(Direction(Name(g))) == 1.0
  {
    GestureNamesDriveStep(g);
    var v := Direction(Name(g));
    assert v.x * v.x + v.y * v.y + v.z * v.z == 1.0 by {
      assert (v.x == 0.0 || v.x * v.x == 1.0) && (v.y == 0.0 || v.y * v.y == 1.0) && (v.z == 0.0 || v.z * v.z == 1.0);
    }
  }

  /**
   * A straight-line gesture moves the drone by the speed along the gesture's
   * own axis and in its own direction, the other coordinates kept, before
   * clipping.
   */
  lemma StraightGestureMoves(g: Gesture, d: Drone, angle: real, index: nat,
                             speed: real, radius: real, circleSpeed: real, trig: Trig)
    requires IsStraight(g)
    ensures var p := Step(d, angle, index, Name(g), speed, radius, circleSpeed, trig).0.pos;
      p == Clip(match g
        case Up => d.pos.(y := d.pos.y + speed)
        case Down => d.pos.(y := d.pos.y - speed)
        case Right => d.pos.(x := d.pos.x + speed)
        case Left => d.pos.(x := d.pos.x - speed)
        case Forward => d.pos.(z := d.pos.z + speed)
        case _ => d.pos.(z := d.pos.z - speed))
  {
    StraightCommandsMoveOneAxis(d, angle, index, speed, radius, circleSpeed, trig);
  }

  /**
   * `Stop` is not a name the simulator dispatches on: it moves nothing and
   * only levels the drone, holding a drone inside the box where it is.
   */
  lemma StopGestureHolds(d: Drone, angle: real, index: nat,
                         speed: real, radius: real, circleSpeed: real, trig: Trig)
    requires InBox(d.pos)
    ensures Step(d, angle, index, Name(Stop), speed, radius, circleSpeed, trig) == (d.(rot := Zero), angle)
  {
    StopHoldsPosition(d, angle, index, speed, radius, circleSpeed, trig);
  }
}
