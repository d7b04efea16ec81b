/**
 * The state of the drone simulator and its per-frame update: each drone
 * obeys the command at its own index, moving one step along an axis or
 * advancing along its circle, and is then kept inside a fixed box.
 *
 * The trigonometric functions and the radians-to-degrees conversion of the
 * circle motion are supplied as the fields of a `Trig` value.
 */
module Simulator {
  import opened Wrappers
  import opened Vectors

  /** One drone: its position, its rotation angles (degrees) and its colour. */
  datatype Drone = Drone(pos: Vec3, rot: Vec3, color: Vec3)

  /** The numeric library functions the circle motion uses. */
  datatype Trig = Trig(cos: real -> real, sin: real -> real, degrees: real -> real)

  const DroneCount := 2

  // Corners of the box every position is clipped to.
  const BoxMin := Vec3(-5.0, -3.0, -15.0)
  const BoxMax := Vec3(5.0, 3.0, -5.0)

  /** The circle of drone 0 is centred at x = -2, that of every other drone at x = 2; both at z = -10. */
  function CircleBaseX(index: nat): real
  {
    if index == 0 then -2.0 else 2.0
  }

  const CircleCentreZ: real := -10.0

  const Red := Vec3(1.0, 0.0, 0.0)
  const Blue := Vec3(0.0, 0.0, 1.0)

  predicate InBox(v: Vec3)
  {
    BoxMin.x <= v.x <= BoxMax.x && BoxMin.y <= v.y <= BoxMax.y && BoxMin.z <= v.z <= BoxMax.z
  }

  /** Clipping to [lo, hi], computed as the minimum with hi of the maximum with lo. */
  function ClipScalar(a: real, lo: real, hi: real): (r: real)
    ensures lo <= hi ==> lo <= r <= hi
    ensures lo <= a <= hi ==> r == a
    ensures a < lo <= hi ==> r == lo
    ensures lo <= hi < a ==> r == hi
  {
    var atLeast := if a < lo then lo else a;
    if atLeast > hi then hi else atLeast
  }

  /** A position clipped coordinate-wise to the box. */
  function Clip(v: Vec3): (r: Vec3)
    ensures InBox(r)
    ensures InBox(v) ==> r == v
  {
    Vec3(ClipScalar(v.x, BoxMin.x, BoxMax.x),
         ClipScalar(v.y, BoxMin.y, BoxMax.y),
         ClipScalar(v.z, BoxMin.z, BoxMax.z))
  }

  /**
   * The unit step of a straight-line command: UP and DOWN along y, RIGHT and
   * LEFT along x, FORWARD and BACKWARD along z; no step for any other string.
   */
  function Direction(command: string): Vec3
  {
    match command
    case "UP" => Vec3(0.0, 1.0, 0.0)
    case "DOWN" => Vec3(0.0, -1.0, 0.0)
    case "LEFT" => Vec3(-1.0, 0.0, 0.0)
    case "RIGHT" => Vec3(1.0, 0.0, 0.0)
    case "FORWARD" => Vec3(0.0, 0.0, 1.0)
    case "BACKWARD" => Vec3(0.0, 0.0, -1.0)
    case _ => Zero
  }

  /**
   * What one command does to the drone at `index` and to its circle angle.
   * CIRCLE advances the angle and puts the drone on its circle, turned to
   * face along it; any other command steps along `Direction(command)` and
   * levels the drone. The position is clipped to the box in both cases.
   */
  function Step(d: Drone, angle: real, index: nat, command: string,
                speed: real, radius: real, circleSpeed: real, trig: Trig): (r: (Drone, real))
    ensures InBox(r.0.pos)
    ensures r.0.color == d.color
  {
    if command == "CIRCLE" then
      var a := angle + circleSpeed;
      var orbit := Vec3(CircleBaseX(index) + radius * trig.cos(a), d.pos.y, CircleCentreZ + radius * trig.sin(a));
      (Drone(Clip(orbit), d.rot.(y := trig.degrees(a)), d.color), a)
    else
      (Drone(Clip(Add(d.pos, Scale(Direction(command), speed))), Zero, d.color), angle)
  }

  /** The response to an optional command: none leaves drone and angle as they are. */
  function Respond(d: Drone, angle: real, index: nat, command: Option<string>,
                   speed: real, radius: real, circleSpeed: real, trig: Trig): (Drone, real)
  {
    match command
    case None => (d, angle)
    case Some(c) => Step(d, angle, index, c, speed, radius, circleSpeed, trig)
  }

  /** The command for drone `i`: none when the list is shorter. */
  function CommandAt(commands: seq<Option<string>>, i: nat): Option<string>
  {
    if i < |commands| then commands[i] else None
  }

  /**
   * The six straight-line commands each move exactly one coordinate by the
   * speed, before clipping: UP/DOWN raise/lower y, RIGHT/LEFT x, FORWARD/BACKWARD z.
   */
  lemma StraightCommandsMoveOneAxis(d: Drone, angle: real, index: nat,
                                    speed: real, radius: real, circleSpeed: real, trig: Trig)
    ensures Step(d, angle, index, "UP", speed, radius, circleSpeed, trig).0.pos == Clip(d.pos.(y := d.pos.y + speed))
    ensures Step(d, angle, index, "DOWN", speed, radius, circleSpeed, trig).0.pos == Clip(d.pos.(y := d.pos.y - speed))
    ensures Step(d, angle, index, "RIGHT", speed, radius, circleSpeed, trig).0.pos == Clip(d.pos.(x := d.pos.x + speed))
    ensures Step(d, angle, index, "LEFT", speed, radius, circleSpeed, trig).0.pos == Clip(d.pos.(x := d.pos.x - speed))
    ensures Step(d, angle, index, "FORWARD", speed, radius, circleSpeed, trig).0.pos == Clip(d.pos.(z := d.pos.z + speed))
    ensures Step(d, angle, index, "BACKWARD", speed, radius, circleSpeed, trig).0.pos == Clip(d.pos.(z := d.pos.z - speed))
  {
  }

  /**
   * Every command but CIRCLE levels the drone and keeps its circle angle;
   * one that is not a straight-line command (STOP, say) moves it only by clipping.
   */
  lemma NonCircleCommandsLevel(d: Drone, angle: real, index: nat, command: string,
                               speed: real, radius: real, circleSpeed: real, trig: Trig)
    requires command != "CIRCLE"
    ensures var r := Step(d, angle, index, command, speed, radius, circleSpeed, trig);
      r.0.rot == Zero && r.1 == angle &&
      (command !in {"UP", "DOWN", "LEFT", "RIGHT", "FORWARD", "BACKWARD"} ==> r.0.pos == Clip(d.pos))
  {
  }

  /** STOP holds a drone that is inside the box where it is, only levelling it. */
  lemma StopHoldsPosition(d: Drone, angle: real, index: nat,
                          speed: real, radius: real, circleSpeed: real, trig: Trig)
    requires InBox(d.pos)
    ensures Step(d, angle, index, "STOP", speed, radius, circleSpeed, trig) == (d.(rot := Zero), angle)
  {
    NonCircleCommandsLevel(d, angle, index, "STOP", speed, radius, circleSpeed, trig);
  }

  /**
   * CIRCLE advances the angle by exactly the circle speed; the new x and z
   * depend only on the drone's index and the new angle, not on where the
   * drone was; y and the pitch and roll angles are kept, up to clipping.
   */
  lemma CircleForgetsPosition(d: Drone, e: Drone, angle: real, index: nat,
                              speed: real, radius: real, circleSpeed: real, trig: Trig)
    requires d.pos.y == e.pos.y
    ensures var r := Step(d, angle, index, "CIRCLE", speed, radius, circleSpeed, trig);
      var s := Step(e, angle, index, "CIRCLE", speed, radius, circleSpeed, trig);
      r.1 == angle + circleSpeed && s.1 == r.1 &&
      r.0.pos == s.0.pos && r.0.rot.y == s.0.rot.y &&
      r.0.pos.y == ClipScalar(d.pos.y, BoxMin.y, BoxMax.y) &&
      r.0.rot.x == d.rot.x && r.0.rot.z == d.rot.z
  {
  }

  /** Clipping twice is clipping once. */
  lemma ClipIdempotent(v: Vec3)
    ensures Clip(Clip(v)) == Clip(v)
  {
  }

  /**
   * A drone's response leaves it inside the box whenever it received a
   * command; a drone without a command is left exactly as it was, not even clipped.
   */
  lemma CommandedDroneInBox(d: Drone, angle: real, index: nat, command: Option<string>,
                            speed: real, radius: real, circleSpeed: real, trig: Trig)
    requires command.Some? || InBox(d.pos)
    ensures InBox(Respond(d, angle, index, command, speed, radius, circleSpeed, trig).0.pos)
    ensures command.None? ==> Respond(d, angle, index, command, speed, radius, circleSpeed, trig) == (d, angle)
  {
  }

  class DroneSimulator {
    var drones: seq<Drone>
    var speed: real
    var gestureSpeed: real
    var circleRadius: real
    var circleSpeed: real
    var circleAngles: seq<real>

    /** Two drones, one circle angle each, every drone inside the box. */
    ghost predicate Valid()
      reads this
    {
      |drones| == DroneCount && |circleAngles| == DroneCount &&
      forall i | 0 <= i < |drones| :: InBox(drones[i].pos)
    }

    constructor ()
      ensures Valid()
      ensures drones == [Drone(Vec3(-2.0, 0.0, -10.0), Zero, Red), Drone(Vec3(2.0, 0.0, -10.0), Zero, Blue)]
      ensures speed == 0.1 && gestureSpeed == 0.15
      ensures circleRadius == 1.0 && circleSpeed == 0.05
      ensures circleAngles == [0.0, 0.0]
    {
      drones := [Drone(Vec3(-2.0, 0.0, -10.0), Zero, Red), Drone(Vec3(2.0, 0.0, -10.0), Zero, Blue)];
      speed := 0.1;
      gestureSpeed := 0.15;
      circleRadius := 1.0;
      circleSpeed := 0.05;
      circleAngles := [0.0, 0.0];
    }

    /**
     * Applies `commands[i]` to drone i for every index of the list. Drones
     * without a command (none, or beyond the list) keep their state; the
     * configuration is untouched; every drone stays inside the box.
     */
    method Update(commands: seq<Option<string>>, trig: Trig)
      requires Valid()
      requires forall i | 0 <= i < |commands| && commands[i].Some? :: i < |drones|
      modifies this
      ensures Valid()
      ensures speed == old(speed) && gestureSpeed == old(gestureSpeed)
      ensures circleRadius == old(circleRadius) && circleSpeed == old(circleSpeed)
      ensures forall i | 0 <= i < |drones| ::
        (drones[i], circleAngles[i]) ==
        Respond(old(drones[i]), old(circleAngles[i]), i, CommandAt(commands, i), speed, circleRadius, circleSpeed, trig)
    {
      var i := 0;
      while i < |commands|
        invariant 0 <= i <= |commands|
        invariant Valid()
        invariant speed == old(speed) && gestureSpeed == old(gestureSpeed)
        invariant circleRadius == old(circleRadius) && circleSpeed == old(circleSpeed)
        invariant forall j | 0 <= j < |drones| ::
          (drones[j], circleAngles[j]) ==
          if j < i then Respond(old(drones[j]), old(circleAngles[j]), j, commands[j], speed, circleRadius, circleSpeed, trig)
          else (old(drones[j]), old(circleAngles[j]))
      {
        if commands[i].Some? {
          Obey(i, commands[i].value, trig);
        }
        i := i + 1;
      }
    }

    /** Carries out one command on drone i, as the body of the update loop does. */
    method Obey(i: nat, c: string, trig: Trig)
      requires Valid() && i < |drones|
      modifies this
      ensures Valid()
      ensures speed == old(speed) && gestureSpeed == old(gestureSpeed)
      ensures circleRadius == old(circleRadius) && circleSpeed == old(circleSpeed)
      ensures var r := Step(old(drones[i]), old(circleAngles[i]), i, c, speed, circleRadius, circleSpeed, trig);
        drones == old(drones)[i := r.0] && circleAngles == old(circleAngles)[i := r.1]
    {
      var pos := drones[i].pos;
      var rot := drones[i].rot;
      if c == "CIRCLE" {
        circleAngles := circleAngles[i := circleAngles[i] + circleSpeed];
        pos := pos.(x := CircleBaseX(i) + circleRadius * trig.cos(circleAngles[i]));
        pos := pos.(z := CircleCentreZ + circleRadius * trig.sin(circleAngles[i]));
        rot := rot.(y := trig.degrees(circleAngles[i]));
        assert Clip(pos) == Step(old(drones[i]), old(circleAngles[i]), i, c, speed, circleRadius, circleSpeed, trig).0.pos;
      } else {
        if c == "UP" {
          pos := pos.(y := pos.y + speed);
        } else if c == "DOWN" {
          pos := pos.(y := pos.y - speed);
        } else if c == "LEFT" {
          pos := pos.(x := pos.x - speed);
        } else if c == "RIGHT" {
          pos := pos.(x := pos.x + speed);
        } else if c == "FORWARD" {
          pos := pos.(z := pos.z + speed);
        } else if c == "BACKWARD" {
          pos := pos.(z := pos.z - speed);
        }
        rot := Zero;
        assert pos == Add(old(drones[i]).pos, Scale(Direction(c), speed));
      }
      drones := drones[i := drones[i].(pos := Clip(pos), rot := rot)];
    }
  }
}
