/**
 The scripted demo scan: a pure function of the seconds elapsed since the demo started.
 It approaches the orbit start, orbits the object on an ellipse, returns home, and then
 stops scanning. Each frame it maps the target machine position to world space and aims
 the wrist at the object's centre with a look-at computation.
 */
module Trajectory {
  import opened Geometry
  import opened Trig
  import Machine

  const Duration := 25.0
  const ApproachEnd := 2.0
  const OrbitEnd := 22.0
  const OrbitDuration := 20.0
  const ReturnDuration := 3.0

  /** Orbit centre and radii in machine units; the y radius is longer to reach the tail. */
  const CentreX := 50.0
  const CentreY := 50.0
  const RadiusX := 60.0
  const RadiusY := 75.0
  /** Machine z held during the orbit. */
  const ScanZ := 50.0
  /** Machine z the head is left at when the demo finishes. */
  const FinishZ := 20.0

  /** World point the wrist is aimed at: the centre of the object. */
  const LookTarget := Vec3(0.0, 1.3, 0.0)

  datatype Phase = Approach | Orbit | Return | Done

  function PhaseAt(elapsed: real): (p: Phase)
    ensures p == Approach <==> elapsed < ApproachEnd
    ensures p == Orbit <==> ApproachEnd <= elapsed < OrbitEnd
    ensures p == Return <==> OrbitEnd <= elapsed <= Duration
    ensures p == Done <==> Duration < elapsed
  {
    if elapsed > Duration then Done
    else if elapsed < ApproachEnd then Approach
    else if elapsed < OrbitEnd then Orbit
    else Return
  }

  function Rank(p: Phase): nat {
    match p
    case Approach => 0
    case Orbit => 1
    case Return => 2
    case Done => 3
  }

  /** Phases follow each other in time and are never re-entered. */
  lemma PhasesInOrder(e1: real, e2: real)
    requires e1 <= e2
    ensures Rank(PhaseAt(e1)) <= Rank(PhaseAt(e2))
  {
  }

  /** A target position in machine coordinates (x, y, z). */
  datatype Target = Target(x: real, y: real, z: real)

  const HomeTarget := Target(Machine.Home.x, Machine.Home.y, Machine.Home.z)
  /** The orbit's start and end point: theta = pi on the ellipse. */
  const OrbitStart := Target(CentreX - RadiusX, CentreY, ScanZ)

  /** Approach: linear from home to the orbit start, t = elapsed / 2. */
  function ApproachAt(t: real): Target {
    var startX := CentreX - RadiusX;
    var startY := CentreY;
    Target(50.0 + (startX - 50.0) * t, 50.0 + (startY - 50.0) * t, 10.0 + (ScanZ - 10.0) * t)
  }

  /** Orbit angle: from pi at 2 s, one full turn over 20 s. */
  function OrbitAngle(o: Oracle, elapsed: real): real {
    var progress := (elapsed - ApproachEnd) / OrbitDuration;
    o.pi + progress * o.pi * 2.0
  }

  /** Orbit: the ellipse around the centre at scan height. */
  function OrbitAt(o: Oracle, theta: real): Target {
    Target(CentreX + RadiusX * o.cos(theta), CentreY + RadiusY * o.sin(theta), ScanZ)
  }

  /** Return: linear from the orbit end back to home, t = (elapsed - 22) / 3. */
  function ReturnAt(t: real): Target {
    var endX := CentreX - RadiusX;
    var endY := CentreY;
    Target(endX + (50.0 - endX) * t, endY + (50.0 - endY) * t, ScanZ + (10.0 - ScanZ) * t)
  }

  /** The machine position the demo drives to at a given elapsed time. */
  function TargetAt(o: Oracle, elapsed: real): (r: Target)
    requires elapsed <= Duration
    ensures elapsed < ApproachEnd ==> r.y == CentreY
    ensures ApproachEnd <= elapsed < OrbitEnd ==> r.z == ScanZ
    ensures r.z <= ScanZ
    ensures 0.0 <= elapsed ==> 10.0 <= r.z
    ensures PhaseAt(elapsed) == Approach ==> r == ApproachAt(elapsed / ApproachEnd)
    ensures PhaseAt(elapsed) == Orbit ==> r == OrbitAt(o, OrbitAngle(o, elapsed))
    ensures PhaseAt(elapsed) == Return ==> r == ReturnAt((elapsed - OrbitEnd) / ReturnDuration)
  {
    if elapsed < ApproachEnd then ApproachAt(elapsed / ApproachEnd)
    else if elapsed < OrbitEnd then OrbitAt(o, OrbitAngle(o, elapsed))
    else ReturnAt((elapsed - OrbitEnd) / ReturnDuration)
  }

  /** The demo starts from the home position. */
  lemma StartsAtHome(o: Oracle)
    ensures TargetAt(o, 0.0) == HomeTarget
  {
  }

  /** The approach ends where the orbit begins (theta = pi), with no jump at 2 s. */
  lemma ApproachMeetsOrbit(o: Oracle)
    requires Valid(o)
    ensures OrbitAngle(o, ApproachEnd) == o.pi
    ensures ApproachAt(1.0) == OrbitStart
    ensures OrbitAt(o, o.pi) == OrbitStart
    ensures TargetAt(o, ApproachEnd) == OrbitStart
    ensures OrbitStart == Target(-10.0, 50.0, 50.0)
  {
  }

  /** The orbit closes one full turn later (theta = 3 pi) where the return starts, and the return ends at home. */
  lemma OrbitMeetsReturn(o: Oracle)
    requires Valid(o)
    ensures OrbitAngle(o, OrbitEnd) == 3.0 * o.pi
    ensures OrbitAt(o, 3.0 * o.pi) == OrbitStart
    ensures ReturnAt(0.0) == OrbitStart
    ensures TargetAt(o, OrbitEnd) == OrbitStart
    ensures TargetAt(o, Duration) == HomeTarget
  {
  }

  /**
   The approximate tool point the look-at aims from: the carriage, bridge and ram offsets
   the machine uses, on top of a fixed height of 5.8.
   */
  function ToolWorld(t: Target): (w: Vec3)
    ensures w.x == Machine.TravelOffset(t.x)
    ensures w.z == Machine.TravelOffset(t.y)
    ensures w.y == 5.8 + Machine.RamOffset(t.z)
  {
    var worldX := (t.x - 50.0) / 100.0 * 6.0;
    var worldZ := (t.y - 50.0) / 100.0 * 6.0;
    var toolY := 5.8 - (t.z / 100.0 * 2.5);
    Vec3(worldX, toolY, worldZ)
  }

  /** The un-normalised look vector from the tool to the object centre. */
  function LookVector(t: Target): Vec3 {
    Sub(LookTarget, ToolWorld(t))
  }

  /** For z in machine range the tool is above the object centre, so the look vector is never zero. */
  lemma ToolAboveLookTarget(t: Target)
    requires t.z <= 100.0
    ensures ToolWorld(t).y >= 3.3 > LookTarget.y
    ensures NormSq(LookVector(t)) > 0.0
  {
    var v := LookVector(t);
    assert v.y < 0.0;
    NormSqPositive(v);
  }

  /** Wrist angles in degrees. */
  datatype Orientation = Orientation(a: real, b: real)

  /** A tilts by -asin of the z component, B turns by atan2(x, -y). */
  function LookAngles(o: Oracle, dir: Vec3): (r: Orientation)
    requires Valid(o)
    ensures dir.z == 0.0 ==> r.a == 0.0
    ensures dir.x == 0.0 && dir.y < 0.0 ==> r.b == 0.0
  {
    var angleA := -o.asin(dir.z);
    var angleB := o.atan2(dir.x, -dir.y);
    Orientation(RadToDeg(o, angleA), RadToDeg(o, angleB))
  }

  /** The wrist angles that aim from the approximate tool point at the object centre. */
  function LookAt(o: Oracle, t: Target): (r: Orientation)
    requires Valid(o)
    ensures t.y == CentreY ==> r.a == 0.0
  {
    LookAngles(o, Normalize(o, LookVector(t)))
  }

  /** Looking straight down gives zero tilt and zero rotation. */
  lemma StraightDownIsZero(o: Oracle)
    requires Valid(o)
    ensures LookAngles(o, Vec3(0.0, -1.0, 0.0)) == Orientation(0.0, 0.0)
  {
    assert o.atan2(0.0, 1.0) == 0.0;
  }

  /** Every frame of the demo aims along a well-defined unit direction. */
  lemma LookDirectionIsUnit(o: Oracle, elapsed: real)
    requires Valid(o)
    requires elapsed <= Duration
    ensures NormSq(Normalize(o, LookVector(TargetAt(o, elapsed)))) == 1.0
  {
    ToolAboveLookTarget(TargetAt(o, elapsed));
    NormalizeUnit(o, LookVector(TargetAt(o, elapsed)));
  }

  /** Directly above the object centre the wrist points straight down. */
  lemma AboveCentreLooksDown(o: Oracle, t: Target)
    requires Valid(o)
    requires t.x == CentreX && t.y == CentreY && t.z <= 100.0
    ensures LookAt(o, t) == Orientation(0.0, 0.0)
  {
    var c := ToolWorld(t).y - LookTarget.y;
    var down := Vec3(0.0, -1.0, 0.0);
    assert c > 0.0;
    assert LookVector(t) == Scale(c, down);
    NormalizeScaledUnit(o, c, down);
    StraightDownIsZero(o);
  }

  /**
   With the carriage centred (x = 50) the look direction has no world-x component and
   points downwards, so the B rotation is 0 whatever the bridge position.
   */
  lemma CentredCarriageNoRotation(o: Oracle, t: Target)
    requires Valid(o)
    requires t.x == CentreX && t.z <= 100.0
    ensures LookAt(o, t).b == 0.0
  {
    var v := LookVector(t);
    ToolAboveLookTarget(t);
    LengthPositive(o, v);
    var l := Length(o, v);
    assert v.y < 0.0;
    assert (1.0 / l) * v.y < 0.0;
  }

  /** At home the wrist points straight down at the object centre. */
  lemma HomeLooksDown(o: Oracle)
    requires Valid(o)
    ensures LookAt(o, HomeTarget) == Orientation(0.0, 0.0)
  {
    AboveCentreLooksDown(o, HomeTarget);
  }

  /** Demo state the animation reads and writes. */
  datatype Demo = Demo(axes: Machine.Axes, scanning: bool)

  /** The result of one animation frame: the new state and whether another frame is requested. */
  datatype Frame = Frame(state: Demo, scheduleNext: bool)

  /** One call of the animation callback at the given elapsed time. */
  function Animate(o: Oracle, elapsed: real, prev: Demo): (f: Frame)
    requires Valid(o)
    ensures f.scheduleNext <==> elapsed <= Duration
    ensures f.scheduleNext <==> PhaseAt(elapsed) != Done
    ensures !f.scheduleNext ==>
      && !f.state.scanning
      && f.state.axes.x == prev.axes.x && f.state.axes.y == prev.axes.y
      && f.state.axes.z == FinishZ && f.state.axes.a == 0.0 && f.state.axes.b == 0.0
    ensures f.scheduleNext ==>
      && f.state.scanning == prev.scanning
      && Target(f.state.axes.x, f.state.axes.y, f.state.axes.z) == TargetAt(o, elapsed)
      && Orientation(f.state.axes.a, f.state.axes.b) == LookAt(o, TargetAt(o, elapsed))
  {
    if elapsed > Duration then
      Frame(Demo(prev.axes.(a := 0.0, b := 0.0, z := FinishZ), false), false)
    else
      var t := TargetAt(o, elapsed);
      var look := LookAt(o, t);
      Frame(Demo(Machine.Axes(t.x, t.y, t.z, look.a, look.b), prev.scanning), true)
  }

  /** The demo's first scheduled frame puts the machine exactly at home. */
  lemma DemoStartsAtHome(o: Oracle, prev: Demo)
    requires Valid(o)
    ensures Animate(o, 0.0, prev).state.axes == Machine.Home
  {
    StartsAtHome(o);
    HomeLooksDown(o);
    var axes := Animate(o, 0.0, prev).state.axes;
    assert Target(axes.x, axes.y, axes.z) == HomeTarget;
    assert Orientation(axes.a, axes.b) == Orientation(0.0, 0.0);
  }

  /** The demo's last scheduled frame, at exactly 25 s, puts the machine back at home. */
  lemma DemoEndsAtHome(o: Oracle, prev: Demo)
    requires Valid(o)
    ensures Animate(o, Duration, prev).state.axes == Machine.Home
  {
    OrbitMeetsReturn(o);
    HomeLooksDown(o);
    var axes := Animate(o, Duration, prev).state.axes;
    assert Target(axes.x, axes.y, axes.z) == HomeTarget;
    assert Orientation(axes.a, axes.b) == Orientation(0.0, 0.0);
  }
}
