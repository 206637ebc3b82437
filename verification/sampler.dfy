/**
 The one-time surface sampling of the scanned object. The object is a list of boxes and
 one cylinder; each part is sampled in its own frame (box: a random face, then a uniform
 point on it with the face's outward normal; cylinder: a random angle and height with
 the radial normal), then rotated and moved into place, and all parts are concatenated
 into one point list and one index-aligned normal list.
 The random numbers and the Euler rotation are parameters of the model.
 */
module Sampler {
  import opened Geometry
  import opened Trig

  /** Scale factor of the object's part sizes and offsets. */
  const Sc := 1.3
  /** Height of the table top the object stands on. */
  const PlatformY := 1.3
  /** Samples per unit of box area (before the factor 4 of the count). */
  const BoxDensity := 5000.0
  /** Samples drawn for a cylinder part. */
  const CylinderCount := 300

  /** Three successive Math.random() results. */
  datatype Draw = Draw(r0: real, r1: real, r2: real)

  predicate UnitDraw(d: Draw) {
    0.0 <= d.r0 < 1.0 && 0.0 <= d.r1 < 1.0 && 0.0 <= d.r2 < 1.0
  }

  datatype Shape =
    | Box(width: real, height: real, depth: real)
    | Cylinder(radiusTop: real, radiusBottom: real, length: real)

  /** A part of the object: its shape, its offset above the table and its Euler rotation. */
  datatype Part = Part(shape: Shape, pos: Vec3, rot: Vec3)

  /** The geometric lion: body, head, snout, mane, four legs and the tail. */
  function LionParts(pi: real): seq<Part> {
    [
      Part(Box(0.8 * Sc, 0.9 * Sc, 1.6 * Sc), Vec3(0.0, 0.8 * Sc, 0.0), Vec3(0.0, 0.0, 0.0)),
      Part(Box(0.9 * Sc, 0.9 * Sc, 1.0 * Sc), Vec3(0.0, 1.4 * Sc, 1.1 * Sc), Vec3(0.0, 0.0, 0.0)),
      Part(Box(0.5 * Sc, 0.4 * Sc, 0.4 * Sc), Vec3(0.0, 1.3 * Sc, 1.7 * Sc), Vec3(0.0, 0.0, 0.0)),
      Part(Box(1.1 * Sc, 1.1 * Sc, 0.6 * Sc), Vec3(0.0, 1.4 * Sc, 0.8 * Sc), Vec3(0.1, 0.0, 0.0)),
      Part(Box(0.25 * Sc, 1.2 * Sc, 0.3 * Sc), Vec3(-0.3 * Sc, 0.6 * Sc, 1.1 * Sc), Vec3(0.0, 0.0, 0.0)),
      Part(Box(0.25 * Sc, 1.2 * Sc, 0.3 * Sc), Vec3(0.3 * Sc, 0.6 * Sc, 1.1 * Sc), Vec3(0.0, 0.0, 0.0)),
      Part(Box(0.3 * Sc, 1.0 * Sc, 0.4 * Sc), Vec3(-0.35 * Sc, 0.5 * Sc, -0.6 * Sc), Vec3(-0.2, 0.0, 0.0)),
      Part(Box(0.3 * Sc, 1.0 * Sc, 0.4 * Sc), Vec3(0.35 * Sc, 0.5 * Sc, -0.6 * Sc), Vec3(-0.2, 0.0, 0.0)),
      Part(Cylinder(0.05 * Sc, 0.05 * Sc, 1.0 * Sc), Vec3(0.0, 0.8 * Sc, -1.0 * Sc), Vec3(pi / 3.0, 0.0, 0.0))
    ]
  }

  /** The lion has eight proper boxes followed by the tail cylinder. */
  lemma LionShape(pi: real)
    ensures |LionParts(pi)| == 9
    ensures forall k :: 0 <= k < 8 ==> LionParts(pi)[k].shape.Box?
    ensures LionParts(pi)[8].shape == Cylinder(0.065, 0.065, 1.3)
  {
  }

  datatype SurfacePoint = SurfacePoint(position: Vec3, normal: Vec3)

  /**
   Points and their normals as two lists. Index i of one belongs to index i of the other:
   `ConcatIndexAligned` and `CloudIndexing` state that pairing for the concatenated cloud.
   */
  datatype Samples = Samples(pts: seq<Vec3>, nrms: seq<Vec3>)

  /** One normal per point. */
  predicate SameLength(s: Samples) {
    |s.pts| == |s.nrms|
  }

  /** Math.ceil. */
  function Ceil(x: real): (n: int)
    ensures x <= n as real < x + 1.0
  {
    var f := x.Floor;
    if f as real == x then f else f + 1
  }

  function BoxArea(width: real, height: real, depth: real): real {
    2.0 * (Mul(width, height) + Mul(width, depth) + Mul(height, depth))
  }

  /** The number of samples drawn for a box: the area times the density times 4, rounded up. */
  function BoxSampleCount(width: real, height: real, depth: real, density: real): (n: int)
    ensures n as real >= Mul(BoxArea(width, height, depth), density) * 4.0
    ensures (n - 1) as real < Mul(BoxArea(width, height, depth), density) * 4.0
  {
    Ceil(Mul(BoxArea(width, height, depth), density) * 4.0)
  }

  /** A proper box with a positive density always gets at least one sample. */
  lemma BoxSampleCountPositive(width: real, height: real, depth: real, density: real)
    requires 0.0 < width && 0.0 < height && 0.0 < depth && 0.0 < density
    ensures BoxSampleCount(width, height, depth, density) >= 1
  {
    MulPositive(width, height);
    MulPositive(width, depth);
    MulPositive(height, depth);
    MulPositive(BoxArea(width, height, depth), density);
  }

  /** Math.floor(Math.random() * 6): a face index in 0..5. */
  function FaceOf(r: real): (face: int)
    ensures 0.0 <= r < 1.0 ==> 0 <= face < 6
  {
    (r * 6.0).Floor
  }

  /** The box coordinate u * extent stays within half the extent for u in [-0.5, 0.5). */
  lemma OffsetWithinHalf(u: real, extent: real)
    requires -0.5 <= u < 0.5 && 0.0 < extent
    ensures -extent / 2.0 <= Mul(u, extent) < extent / 2.0
  {
    MulPositive(0.5 - u, extent);
    assert Mul(0.5 - u, extent) == extent / 2.0 - Mul(u, extent);
    if u > -0.5 {
      MulPositive(u + 0.5, extent);
      assert Mul(u + 0.5, extent) == Mul(u, extent) + extent / 2.0;
    }
  }

  predicate IsAxisUnit(n: Vec3) {
    n == Vec3(1.0, 0.0, 0.0) || n == Vec3(-1.0, 0.0, 0.0) ||
    n == Vec3(0.0, 1.0, 0.0) || n == Vec3(0.0, -1.0, 0.0) ||
    n == Vec3(0.0, 0.0, 1.0) || n == Vec3(0.0, 0.0, -1.0)
  }

  predicate WithinBox(p: Vec3, width: real, height: real, depth: real) {
    Abs(p.x) <= width / 2.0 && Abs(p.y) <= height / 2.0 && Abs(p.z) <= depth / 2.0
  }

  /** Half the box's extent along an axis unit vector. */
  function HalfExtentAlong(n: Vec3, width: real, height: real, depth: real): real {
    if n.x != 0.0 then width / 2.0 else if n.y != 0.0 then height / 2.0 else depth / 2.0
  }

  /**
   The sample lies on the face whose outward normal it carries: inside the box, and at
   half the box's extent along that normal.
   */
  predicate OnFace(s: SurfacePoint, width: real, height: real, depth: real) {
    && IsAxisUnit(s.normal)
    && WithinBox(s.position, width, height, depth)
    && Dot(s.position, s.normal) == HalfExtentAlong(s.normal, width, height, depth)
  }

  /** One box sample for a face index and two offsets u, v. */
  function BoxSample(width: real, height: real, depth: real, face: int, u: real, v: real): (s: SurfacePoint)
    ensures IsAxisUnit(s.normal)
    ensures Dot(s.position, s.normal) == HalfExtentAlong(s.normal, width, height, depth)
  {
    if face == 0 then SurfacePoint(Vec3(width / 2.0, Mul(u, height), Mul(v, depth)), Vec3(1.0, 0.0, 0.0))
    else if face == 1 then SurfacePoint(Vec3(-width / 2.0, Mul(u, height), Mul(v, depth)), Vec3(-1.0, 0.0, 0.0))
    else if face == 2 then SurfacePoint(Vec3(Mul(u, width), height / 2.0, Mul(v, depth)), Vec3(0.0, 1.0, 0.0))
    else if face == 3 then SurfacePoint(Vec3(Mul(u, width), -height / 2.0, Mul(v, depth)), Vec3(0.0, -1.0, 0.0))
    else if face == 4 then SurfacePoint(Vec3(Mul(u, width), Mul(v, height), depth / 2.0), Vec3(0.0, 0.0, 1.0))
    else SurfacePoint(Vec3(Mul(u, width), Mul(v, height), -depth / 2.0), Vec3(0.0, 0.0, -1.0))
  }

  /**
   For offsets in [-0.5, 0.5) every box sample lies on the face its normal points out of,
   and the normal points away from the box centre.
   */
  lemma BoxSampleOnFace(width: real, height: real, depth: real, face: int, u: real, v: real)
    requires 0.0 < width && 0.0 < height && 0.0 < depth
    requires -0.5 <= u < 0.5 && -0.5 <= v < 0.5
    ensures OnFace(BoxSample(width, height, depth, face, u, v), width, height, depth)
    ensures Dot(BoxSample(width, height, depth, face, u, v).position, BoxSample(width, height, depth, face, u, v).normal) > 0.0
  {
    OffsetWithinHalf(u, width);
    OffsetWithinHalf(u, height);
    OffsetWithinHalf(v, height);
    OffsetWithinHalf(v, depth);
  }

  /** The sample a box draws from three random numbers. */
  function BoxDraw(width: real, height: real, depth: real, d: Draw): SurfacePoint {
    BoxSample(width, height, depth, FaceOf(d.r0), d.r1 - 0.5, d.r2 - 0.5)
  }

  function Max0(n: int): nat {
    if n < 0 then 0 else n
  }

  /** getBoxPoints: the box's samples, in draw order. */
  function BoxSamples(width: real, height: real, depth: real, density: real, draws: seq<Draw>): (s: Samples)
    requires |draws| >= BoxSampleCount(width, height, depth, density)
    ensures SameLength(s)
    ensures |s.pts| == Max0(BoxSampleCount(width, height, depth, density))
    ensures forall i :: 0 <= i < |s.pts| ==>
      SurfacePoint(s.pts[i], s.nrms[i]) == BoxDraw(width, height, depth, draws[i])
  {
    var n := Max0(BoxSampleCount(width, height, depth, density));
    Samples(
      seq(n, i requires 0 <= i < n => BoxDraw(width, height, depth, draws[i]).position),
      seq(n, i requires 0 <= i < n => BoxDraw(width, height, depth, draws[i]).normal))
  }

  /** Every sample of a proper box drawn from numbers in [0, 1) lies on a face of the box. */
  lemma BoxSamplesOnFaces(width: real, height: real, depth: real, density: real, draws: seq<Draw>)
    requires |draws| >= BoxSampleCount(width, height, depth, density)
    requires 0.0 < width && 0.0 < height && 0.0 < depth
    ensures forall i :: 0 <= i < |BoxSamples(width, height, depth, density, draws).pts| && UnitDraw(draws[i]) ==>
      var s := BoxSamples(width, height, depth, density, draws);
      OnFace(SurfacePoint(s.pts[i], s.nrms[i]), width, height, depth)
  {
    var s := BoxSamples(width, height, depth, density, draws);
    forall i | 0 <= i < |s.pts| && UnitDraw(draws[i])
      ensures OnFace(SurfacePoint(s.pts[i], s.nrms[i]), width, height, depth)
    {
      BoxSampleOnFace(width, height, depth, FaceOf(draws[i].r0), draws[i].r1 - 0.5, draws[i].r2 - 0.5);
    }
  }

  /** One cylinder sample: angle r0 * 2 pi, height (r1 - 0.5) * length, radial normal. */
  function CylinderSample(o: Oracle, radius: real, length: real, d: Draw): (s: SurfacePoint)
    ensures s.normal.y == 0.0
    ensures s.position.x == Mul(radius, s.normal.x) && s.position.z == Mul(radius, s.normal.z)
  {
    var theta := d.r0 * o.pi * 2.0;
    SurfacePoint(
      Vec3(Mul(o.cos(theta), radius), Mul(d.r1 - 0.5, length), Mul(o.sin(theta), radius)),
      Vec3(o.cos(theta), 0.0, o.sin(theta)))
  }

  /** Cylinder samples stay between the two caps. */
  lemma CylinderSampleHeight(o: Oracle, radius: real, length: real, d: Draw)
    requires UnitDraw(d) && 0.0 < length
    ensures -length / 2.0 <= CylinderSample(o, radius, length, d).position.y < length / 2.0
  {
    OffsetWithinHalf(d.r1 - 0.5, length);
  }

  /** The cylinder branch: exactly 300 samples around the axis. */
  function CylinderSamples(o: Oracle, radius: real, length: real, draws: seq<Draw>): (s: Samples)
    requires |draws| >= CylinderCount
    ensures SameLength(s) && |s.pts| == CylinderCount
    ensures forall k :: 0 <= k < CylinderCount ==>
      && s.nrms[k].y == 0.0
      && s.pts[k].x == Mul(radius, s.nrms[k].x)
      && s.pts[k].z == Mul(radius, s.nrms[k].z)
    ensures forall k :: 0 <= k < CylinderCount ==>
      SurfacePoint(s.pts[k], s.nrms[k]) == CylinderSample(o, radius, length, draws[k])
  {
    Samples(
      seq(CylinderCount, k requires 0 <= k < CylinderCount => CylinderSample(o, radius, length, draws[k]).position),
      seq(CylinderCount, k requires 0 <= k < CylinderCount => CylinderSample(o, radius, length, draws[k]).normal))
  }

  /** How many random draws a part consumes. */
  function DrawsNeeded(part: Part): int {
    match part.shape
    case Box(w, h, d) => BoxSampleCount(w, h, d, BoxDensity)
    case Cylinder(_, _, _) => CylinderCount
  }

  /** Every part of the lion gets at least one sample. */
  lemma LionEveryPartSampled(pi: real)
    ensures forall k :: 0 <= k < |LionParts(pi)| ==> DrawsNeeded(LionParts(pi)[k]) >= 1
  {
    var parts := LionParts(pi);
    forall k | 0 <= k < |parts|
      ensures DrawsNeeded(parts[k]) >= 1
    {
      match parts[k].shape
      case Box(w, h, d) =>
        BoxSampleCountPositive(w, h, d, BoxDensity);
      case Cylinder(_, _, _) =>
    }
  }

  /** A part's samples in its own frame. */
  function PartSamples(o: Oracle, part: Part, draws: seq<Draw>): (s: Samples)
    requires |draws| >= DrawsNeeded(part)
    ensures SameLength(s)
    ensures |s.pts| == Max0(DrawsNeeded(part))
  {
    match part.shape
    case Box(w, h, d) => BoxSamples(w, h, d, BoxDensity, draws)
    case Cylinder(radius, _, length) => CylinderSamples(o, radius, length, draws)
  }

  /**
   Moves a part's samples into the world: points are rotated and then translated onto the
   table, normals are only rotated. `rotate(euler, v)` stands for applyQuaternion.
   */
  function Place(rotate: (Vec3, Vec3) -> Vec3, part: Part, s: Samples): (r: Samples)
    requires SameLength(s)
    ensures SameLength(r) && |r.pts| == |s.pts|
  {
    var pos := Add(part.pos, Vec3(0.0, PlatformY, 0.0));
    Samples(
      seq(|s.pts|, i requires 0 <= i < |s.pts| => Add(rotate(part.rot, s.pts[i]), pos)),
      seq(|s.nrms|, i requires 0 <= i < |s.nrms| => rotate(part.rot, s.nrms[i])))
  }

  ghost predicate AllSameLength(parts: seq<Samples>) {
    forall k :: 0 <= k < |parts| ==> SameLength(parts[k])
  }

  /** The number of points in all the given parts together. */
  function TotalSize(parts: seq<Samples>): nat {
    if |parts| == 0 then 0 else TotalSize(parts[..|parts| - 1]) + |parts[|parts| - 1].pts|
  }

  /** Appends the parts' points and normals in part order. */
  function Concat(parts: seq<Samples>): (r: Samples)
    requires AllSameLength(parts)
    ensures SameLength(r)
    ensures |r.pts| == TotalSize(parts)
  {
    if |parts| == 0 then Samples([], [])
    else
      var init := Concat(parts[..|parts| - 1]);
      var last := parts[|parts| - 1];
      Samples(init.pts + last.pts, init.nrms + last.nrms)
  }

  /** Where part k's samples start in the concatenation. */
  function Offset(parts: seq<Samples>, k: nat): nat
    requires k <= |parts|
  {
    TotalSize(parts[..k])
  }

  /**
   Stable indexing: sample i of part k sits at position Offset(k) + i in both the point
   list and the normal list, so normals stay attached to their points.
   */
  lemma {:induction false} ConcatIndexAligned(parts: seq<Samples>, k: nat, i: nat)
    requires AllSameLength(parts)
    requires k < |parts| && i < |parts[k].pts|
    ensures Offset(parts, k) + i < |Concat(parts).pts|
    ensures Concat(parts).pts[Offset(parts, k) + i] == parts[k].pts[i]
    ensures Concat(parts).nrms[Offset(parts, k) + i] == parts[k].nrms[i]
  {
    var n := |parts|;
    var init := parts[..n - 1];
    assert AllSameLength(init);
    assert init[..k] == parts[..k] by {
      if k < n - 1 {
        assert init[..k] == parts[..k];
      }
    }
    if k == n - 1 {
      assert init == parts[..k];
      assert |Concat(init).nrms| == TotalSize(init);
    } else {
      ConcatIndexAligned(init, k, i);
      assert Offset(init, k) == Offset(parts, k);
      OffsetMonotone(parts, k + 1, n - 1);
      assert Offset(parts, k + 1) == Offset(parts, k) + |parts[k].pts| by {
        assert parts[..k + 1][..k] == parts[..k];
      }
    }
  }

  /** Offsets grow with the part index. */
  lemma {:induction false} OffsetMonotone(parts: seq<Samples>, j: nat, k: nat)
    requires j <= k <= |parts|
    ensures Offset(parts, j) <= Offset(parts, k)
    decreases k - j
  {
    if j < k {
      OffsetMonotone(parts, j, k - 1);
      assert parts[..k][..k - 1] == parts[..k - 1];
    }
  }

  /** The cloud of a whole object: every part sampled, placed and concatenated in list order. */
  function Cloud(o: Oracle, rotate: (Vec3, Vec3) -> Vec3, parts: seq<Part>, draws: seq<seq<Draw>>): (c: Samples)
    requires |draws| == |parts|
    requires forall k :: 0 <= k < |parts| ==> |draws[k]| >= DrawsNeeded(parts[k])
    ensures SameLength(c)
  {
    Concat(PlacedParts(o, rotate, parts, draws))
  }

  function PlacedParts(o: Oracle, rotate: (Vec3, Vec3) -> Vec3, parts: seq<Part>, draws: seq<seq<Draw>>): (r: seq<Samples>)
    requires |draws| == |parts|
    requires forall k :: 0 <= k < |parts| ==> |draws[k]| >= DrawsNeeded(parts[k])
    ensures |r| == |parts| && AllSameLength(r)
  {
    seq(|parts|, k requires 0 <= k < |parts| => Place(rotate, parts[k], PartSamples(o, parts[k], draws[k])))
  }

  /**
   In the object's cloud, sample i of part k is that part's local sample rotated and moved
   onto the table, and its normal is the rotated local normal, at the same index.
   */
  lemma CloudIndexing(o: Oracle, rotate: (Vec3, Vec3) -> Vec3, parts: seq<Part>, draws: seq<seq<Draw>>, k: nat, i: nat)
    requires |draws| == |parts|
    requires forall k :: 0 <= k < |parts| ==> |draws[k]| >= DrawsNeeded(parts[k])
    requires k < |parts| && i < Max0(DrawsNeeded(parts[k]))
    ensures var placed := PlacedParts(o, rotate, parts, draws);
      var local := PartSamples(o, parts[k], draws[k]);
      var c := Cloud(o, rotate, parts, draws);
      && Offset(placed, k) + i < |c.pts|
      && c.pts[Offset(placed, k) + i] == Add(rotate(parts[k].rot, local.pts[i]), Add(parts[k].pos, Vec3(0.0, PlatformY, 0.0)))
      && c.nrms[Offset(placed, k) + i] == rotate(parts[k].rot, local.nrms[i])
  {
    var placed := PlacedParts(o, rotate, parts, draws);
    ConcatIndexAligned(placed, k, i);
  }

  /** Part k + 1 starts right after the samples of part k. */
  lemma OffsetStep(parts: seq<Samples>, k: nat)
    requires k < |parts|
    ensures Offset(parts, k + 1) == Offset(parts, k) + |parts[k].pts|
  {
    assert parts[..k + 1][..k] == parts[..k];
  }

  /**
   In the lion's cloud every part occupies a non-empty block, in list order, and the cloud
   ends with the tail's 300 samples, each a tail sample of radius 0.065 and length 1.3
   rotated by the tail's tilt and lifted onto the table.
   */
  lemma LionCloud(o: Oracle, rotate: (Vec3, Vec3) -> Vec3, draws: seq<seq<Draw>>)
    requires |draws| == |LionParts(o.pi)|
    requires forall k :: 0 <= k < |LionParts(o.pi)| ==> |draws[k]| >= DrawsNeeded(LionParts(o.pi)[k])
    ensures var placed := PlacedParts(o, rotate, LionParts(o.pi), draws);
      forall k :: 0 <= k < |placed| ==> Offset(placed, k) < Offset(placed, k + 1)
    ensures var placed := PlacedParts(o, rotate, LionParts(o.pi), draws);
      var c := Cloud(o, rotate, LionParts(o.pi), draws);
      && |c.pts| == Offset(placed, 8) + CylinderCount
      && forall i :: 0 <= i < CylinderCount ==>
        && c.pts[Offset(placed, 8) + i] ==
          Add(rotate(Vec3(o.pi / 3.0, 0.0, 0.0), CylinderSample(o, 0.065, 1.3, draws[8][i]).position), Vec3(0.0, 1.04 + PlatformY, -1.3))
        && c.nrms[Offset(placed, 8) + i] ==
          rotate(Vec3(o.pi / 3.0, 0.0, 0.0), CylinderSample(o, 0.065, 1.3, draws[8][i]).normal)
  {
    var parts := LionParts(o.pi);
    var placed := PlacedParts(o, rotate, parts, draws);
    var c := Cloud(o, rotate, parts, draws);
    LionShape(o.pi);
    LionEveryPartSampled(o.pi);
    forall k | 0 <= k < |placed|
      ensures Offset(placed, k) < Offset(placed, k + 1)
    {
      OffsetStep(placed, k);
    }
    OffsetStep(placed, 8);
    assert placed[..9] == placed;
    var tail := PartSamples(o, parts[8], draws[8]);
    forall i | 0 <= i < CylinderCount
      ensures c.pts[Offset(placed, 8) + i] ==
        Add(rotate(Vec3(o.pi / 3.0, 0.0, 0.0), CylinderSample(o, 0.065, 1.3, draws[8][i]).position), Vec3(0.0, 1.04 + PlatformY, -1.3))
      ensures c.nrms[Offset(placed, 8) + i] ==
        rotate(Vec3(o.pi / 3.0, 0.0, 0.0), CylinderSample(o, 0.065, 1.3, draws[8][i]).normal)
    {
      CloudIndexing(o, rotate, parts, draws, 8, i);
      assert tail.pts[i] == CylinderSample(o, 0.065, 1.3, draws[8][i]).position;
    }
  }
}
