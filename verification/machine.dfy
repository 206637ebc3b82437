/**
 The five-axis gantry: the axis values the operator or the demo trajectory sets, and the
 per-frame assignment that turns them into the translations and rotations of the nested
 bridge, carriage, ram, B-axis and A-axis groups.
 */
module Machine {
  import opened Trig

  /**
   Machine coordinates: x, y, z in machine units (the sliders set them in 0..100, the demo
   drives x and y beyond that), a and b in degrees.
   */
  datatype Axes = Axes(x: real, y: real, z: real, a: real, b: real)

  /** The pose the application starts in and resets to. */
  const Home := Axes(50.0, 50.0, 10.0, 0.0, 0.0)

  /** World units spanned by 100 machine units of x or y. */
  const TravelSpan := 6.0
  /** World units the ram extends at z = 100. */
  const RamStroke := 2.5

  /**
   Translation of the carriage (along world x, from machine x) or of the bridge (along
   world z, from machine y): both travel axes use the same centred linear map.
   */
  function TravelOffset(v: real): (r: real)
    ensures 0.0 <= v <= 100.0 ==> -3.0 <= r <= 3.0
    ensures r == 0.0 <==> v == 50.0
    ensures r > 0.0 <==> v > 50.0
  {
    (v - 50.0) / 100.0 * TravelSpan
  }

  /** Ram translation along world y: the ram extends downwards as z grows. */
  function RamOffset(z: real): (r: real)
    ensures 0.0 <= z <= 100.0 ==> -RamStroke <= r <= 0.0
    ensures r == 0.0 <==> z == 0.0
    ensures r < 0.0 <==> z > 0.0
  {
    -(z / 100.0 * RamStroke)
  }

  /** The one coordinate each group of the kinematic chain receives per frame. */
  datatype Joints = Joints(
    bridgeZ: real,    // bridge position.z
    carriageX: real,  // carriage position.x
    ramY: real,       // ram position.y
    bRotZ: real,      // B-axis rotation.z, radians
    aRotX: real)      // A-axis rotation.x, radians

  /**
   The per-frame assignment block: bridge z, carriage x and ram y from the travel axes,
   B rotation about the B group's z and A rotation about the x axis of the A group nested
   inside it, in radians.
   */
  function JointsOf(o: Oracle, axes: Axes): (j: Joints)
    ensures 0.0 <= axes.x <= 100.0 ==> -3.0 <= j.carriageX <= 3.0
    ensures 0.0 <= axes.y <= 100.0 ==> -3.0 <= j.bridgeZ <= 3.0
    ensures 0.0 <= axes.z <= 100.0 ==> -RamStroke <= j.ramY <= 0.0
    ensures j.carriageX == 0.0 <==> axes.x == 50.0
    ensures j.bridgeZ == 0.0 <==> axes.y == 50.0
    ensures axes.a == 0.0 ==> j.aRotX == 0.0
    ensures axes.b == 0.0 ==> j.bRotZ == 0.0
  {
    Joints(
      TravelOffset(axes.y),
      TravelOffset(axes.x),
      RamOffset(axes.z),
      DegToRad(o, axes.b),
      DegToRad(o, axes.a))
  }

  /** At home the carriage and bridge are centred, the ram is slightly extended and the wrist is straight. */
  lemma HomeJoints(o: Oracle)
    requires Valid(o)
    ensures JointsOf(o, Home) == Joints(0.0, 0.0, -0.25, 0.0, 0.0)
  {
  }

  /** Carriage and bridge offsets are strictly increasing in their own axis. */
  lemma OffsetsStrictlyIncreasing(v1: real, v2: real)
    requires v1 < v2
    ensures TravelOffset(v1) < TravelOffset(v2)
  {
  }

  /** A higher z means a lower ram. */
  lemma RamNonIncreasing(z1: real, z2: real)
    requires z1 <= z2
    ensures RamOffset(z2) <= RamOffset(z1)
  {
  }

  /** Each axis drives exactly one joint coordinate: changing it leaves the other four as they were. */
  lemma AxisChangesOneJoint(o: Oracle, axes: Axes, v: real)
    ensures JointsOf(o, axes.(x := v)) == JointsOf(o, axes).(carriageX := TravelOffset(v))
    ensures JointsOf(o, axes.(y := v)) == JointsOf(o, axes).(bridgeZ := TravelOffset(v))
    ensures JointsOf(o, axes.(z := v)) == JointsOf(o, axes).(ramY := RamOffset(v))
    ensures JointsOf(o, axes.(b := v)) == JointsOf(o, axes).(bRotZ := DegToRad(o, v))
    ensures JointsOf(o, axes.(a := v)) == JointsOf(o, axes).(aRotX := DegToRad(o, v))
  {
  }

  /** The wrist rotations are linear in the axis angles, vanish at 0 degrees and convert back exactly. */
  lemma RotationsLinear(o: Oracle, axes: Axes, axes': Axes)
    requires Valid(o)
    ensures JointsOf(o, axes).aRotX + JointsOf(o, axes').aRotX == DegToRad(o, axes.a + axes'.a)
    ensures JointsOf(o, axes).bRotZ + JointsOf(o, axes').bRotZ == DegToRad(o, axes.b + axes'.b)
    ensures axes.a == 0.0 ==> JointsOf(o, axes).aRotX == 0.0
    ensures axes.b == 0.0 ==> JointsOf(o, axes).bRotZ == 0.0
    ensures RadToDeg(o, JointsOf(o, axes).aRotX) == axes.a
    ensures RadToDeg(o, JointsOf(o, axes).bRotZ) == axes.b
  {
    DegRadRoundTrip(o, axes.a, axes'.a);
    DegRadRoundTrip(o, axes.b, axes'.b);
  }
}
