/**
 The per-frame scan: while scanning, every not yet scanned surface point that is within
 range of the scanner, inside its viewing cone and facing it is added to the set of
 scanned indices. A frame never removes an index. When each frame starts from the set the
 previous frame committed, the set only grows over a sequence of frames, and the result is
 the union, over the scanner poses, of the points acquirable from each pose.
 */
module Scan {
  import opened Geometry
  import opened Trig

  /** Acquisition range, strict at both ends, in world units. */
  const MinDist := 0.1
  const MaxDist := 2.3
  /** Full opening angle of the viewing cone, in degrees. */
  const FovDeg := 75.0
  /** Index step of the scan loop. */
  const Stride := 1

  /** Where the scanner is and which way it looks. */
  datatype Pose = Pose(pos: Vec3, dir: Vec3)

  /** The cone's full angle in radians. */
  function Fov(o: Oracle): real {
    FovDeg * (o.pi / 180.0)
  }

  /** The three acquisition tests of one point, as the frame callback performs them. */
  predicate PassesTests(o: Oracle, pose: Pose, pt: Vec3, n: Vec3): (r: bool)
    ensures r ==> pt != pose.pos
  {
    var toPoint := Sub(pt, pose.pos);
    var dist := Length(o, toPoint);
    && dist < MaxDist && dist > MinDist
    && o.angleTo(Normalize(o, toPoint), pose.dir) < Fov(o) / 2.0
    && Dot(Normalize(o, Sub(pose.pos, pt)), n) > 0.0
  }

  /**
   The acquisition condition without square roots or normalisation: the squared distance
   is strictly between the squared bounds, the point is inside the cone, and the normal
   has a positive component towards the scanner.
   */
  predicate Acquirable(o: Oracle, pose: Pose, pt: Vec3, n: Vec3) {
    var toPoint := Sub(pt, pose.pos);
    && Mul(MinDist, MinDist) < NormSq(toPoint) < Mul(MaxDist, MaxDist)
    && o.angleTo(Normalize(o, toPoint), pose.dir) < Fov(o) / 2.0
    && Dot(Sub(pose.pos, pt), n) > 0.0
  }

  /** The tests as performed accept exactly the acquirable points. */
  lemma TestsAreExact(o: Oracle, pose: Pose, pt: Vec3, n: Vec3)
    requires Valid(o)
    ensures PassesTests(o, pose, pt, n) <==> Acquirable(o, pose, pt, n)
  {
    var toPoint := Sub(pt, pose.pos);
    var back := Sub(pose.pos, pt);
    SqrtCompare(o, NormSq(toPoint), MaxDist);
    SqrtCompare(o, NormSq(toPoint), MinDist);
    NormSqSubSymmetric(pt, pose.pos);
    if NormSq(toPoint) > Mul(MinDist, MinDist) {
      NormalizeDotSign(o, back, n);
    }
  }

  /** Indices the frame callback adds to `scanned` from one pose. */
  function Newly(o: Oracle, pose: Pose, points: seq<Vec3>, normals: seq<Vec3>, scanned: set<int>): set<int>
    requires |normals| == |points|
  {
    set i | 0 <= i < |points| && i !in scanned && PassesTests(o, pose, points[i], normals[i])
  }

  /** The scanned set after one frame. */
  function Tick(o: Oracle, pose: Pose, points: seq<Vec3>, normals: seq<Vec3>, scanned: set<int>, isScanning: bool): (r: set<int>)
    requires |normals| == |points|
    ensures scanned <= r
    ensures !isScanning ==> r == scanned
  {
    if isScanning then scanned + Newly(o, pose, points, normals, scanned) else scanned
  }

  /**
   The frame callback: walks the point list once, skipping indices already scanned, and
   reports whether anything was added; the set is only replaced when something changed.
   */
  method ScanTick(o: Oracle, pose: Pose, points: seq<Vec3>, normals: seq<Vec3>, scanned: set<int>, isScanning: bool)
    returns (next: set<int>, changed: bool)
    requires Valid(o)
    requires |normals| == |points|
    ensures next == Tick(o, pose, points, normals, scanned, isScanning)
    ensures changed <==> next != scanned
    ensures forall i :: i in next && i !in scanned ==>
      0 <= i < |points| && Acquirable(o, pose, points[i], normals[i])
    ensures isScanning ==> forall i :: 0 <= i < |points| && Acquirable(o, pose, points[i], normals[i]) ==> i in next
  {
    if !isScanning {
      return scanned, false;
    }
    var newIndices := scanned;
    changed := false;
    var i := 0;
    while i < |points|
      invariant 0 <= i <= |points|
      invariant newIndices == scanned +
        set j | 0 <= j < i && j !in scanned && PassesTests(o, pose, points[j], normals[j])
      invariant changed <==> newIndices != scanned
    {
      if i !in newIndices {
        var toPoint := Sub(points[i], pose.pos);
        var dist := Length(o, toPoint);
        if dist < MaxDist && dist > MinDist {
          var angle := o.angleTo(Normalize(o, toPoint), pose.dir);
          if angle < Fov(o) / 2.0 {
            var viewVec := Normalize(o, Sub(pose.pos, points[i]));
            if Dot(viewVec, normals[i]) > 0.0 {
              newIndices := newIndices + {i};
              changed := true;
            }
          }
        }
      }
      i := i + Stride;
    }
    next := if changed then newIndices else scanned;
    forall j | 0 <= j < |points|
      ensures PassesTests(o, pose, points[j], normals[j]) <==> Acquirable(o, pose, points[j], normals[j])
    {
      TestsAreExact(o, pose, points[j], normals[j]);
    }
  }

  /** A second frame from the same pose adds nothing. */
  lemma TickIdempotent(o: Oracle, pose: Pose, points: seq<Vec3>, normals: seq<Vec3>, scanned: set<int>, isScanning: bool)
    requires |normals| == |points|
    ensures var once := Tick(o, pose, points, normals, scanned, isScanning);
      Tick(o, pose, points, normals, once, isScanning) == once
  {
  }

  /**
   The scanned set after one frame per pose, in order, while scanning, each frame starting
   from the set the previous frame committed.
   */
  function Run(o: Oracle, poses: seq<Pose>, points: seq<Vec3>, normals: seq<Vec3>, scanned: set<int>): (r: set<int>)
    requires |normals| == |points|
    ensures scanned <= r
  {
    if |poses| == 0 then scanned
    else Tick(o, poses[|poses| - 1], points, normals, Run(o, poses[..|poses| - 1], points, normals, scanned), true)
  }

  /** Scanning never forgets a point. */
  lemma {:induction false} RunMonotone(o: Oracle, poses: seq<Pose>, points: seq<Vec3>, normals: seq<Vec3>, scanned: set<int>, k: nat)
    requires |normals| == |points|
    requires k <= |poses|
    ensures scanned <= Run(o, poses[..k], points, normals, scanned)
    ensures Run(o, poses[..k], points, normals, scanned) <= Run(o, poses, points, normals, scanned)
    decreases |poses|
  {
    if |poses| > 0 {
      var init := poses[..|poses| - 1];
      if k < |poses| {
        RunMonotone(o, init, points, normals, scanned, k);
        assert init[..k] == poses[..k];
      } else {
        assert poses[..k] == poses;
        RunMonotone(o, init, points, normals, scanned, 0);
        assert init[..0] == [];
      }
    }
  }

  /**
   After a run, an index is scanned exactly when it was scanned before or the point is
   acquirable from at least one of the poses; the order of the poses does not matter.
   */
  lemma {:induction false} RunIsUnionOfPoses(o: Oracle, poses: seq<Pose>, points: seq<Vec3>, normals: seq<Vec3>, scanned: set<int>, i: int)
    requires Valid(o)
    requires |normals| == |points|
    ensures i in Run(o, poses, points, normals, scanned) <==>
      i in scanned || (0 <= i < |points| && exists k :: 0 <= k < |poses| && Acquirable(o, poses[k], points[i], normals[i]))
  {
    if |poses| > 0 {
      var init := poses[..|poses| - 1];
      var last := poses[|poses| - 1];
      RunIsUnionOfPoses(o, init, points, normals, scanned, i);
      if 0 <= i < |points| {
        TestsAreExact(o, last, points[i], normals[i]);
        if exists k :: 0 <= k < |poses| && Acquirable(o, poses[k], points[i], normals[i]) {
          var k :| 0 <= k < |poses| && Acquirable(o, poses[k], points[i], normals[i]);
          if k < |poses| - 1 {
            assert init[k] == poses[k];
          }
        }
        if exists k :: 0 <= k < |init| && Acquirable(o, init[k], points[i], normals[i]) {
          var k :| 0 <= k < |init| && Acquirable(o, init[k], points[i], normals[i]);
          assert poses[k] == init[k];
        }
      }
    }
  }

  /** Only indices of real points are ever added. */
  lemma {:induction false} RunWithinPoints(o: Oracle, poses: seq<Pose>, points: seq<Vec3>, normals: seq<Vec3>, scanned: set<int>)
    requires |normals| == |points|
    ensures forall i :: i in Run(o, poses, points, normals, scanned) ==> i in scanned || 0 <= i < |points|
  {
    if |poses| > 0 {
      RunWithinPoints(o, poses[..|poses| - 1], points, normals, scanned);
    }
  }

  /** The point at distance d along the view direction. */
  function OnAxis(pose: Pose, d: real): Vec3 {
    Add(pose.pos, Scale(d, pose.dir))
  }

  /** Squaring keeps the strict order of the range bounds for a positive distance. */
  lemma InRangeOnAxis(d: real)
    requires 0.0 < d
    ensures MinDist < d < MaxDist <==> Mul(MinDist, MinDist) < Mul(d, d) < Mul(MaxDist, MaxDist)
  {
    if d <= MinDist {
      if d < MinDist { SquareLess(d, MinDist); }
    } else {
      SquareLess(MinDist, d);
    }
    if d < MaxDist {
      SquareLess(d, MaxDist);
    } else if MaxDist < d {
      SquareLess(MaxDist, d);
    }
  }

  /**
   A point straight ahead of a scanner with a unit view direction is acquired exactly when
   its distance lies strictly between 0.1 and 2.3 and its normal points against the view
   direction.
   */
  lemma AxisPointAcquired(o: Oracle, pose: Pose, d: real, n: Vec3)
    requires Valid(o)
    requires NormSq(pose.dir) == 1.0 && 0.0 < d
    ensures PassesTests(o, pose, OnAxis(pose, d), n) <==> MinDist < d < MaxDist && Dot(pose.dir, n) < 0.0
  {
    var pt := OnAxis(pose, d);
    var toPoint := Sub(pt, pose.pos);
    assert toPoint == Scale(d, pose.dir);
    NormSqScale(d, pose.dir);
    InRangeOnAxis(d);
    NormalizeScaledUnit(o, d, pose.dir);
    assert o.angleTo(pose.dir, pose.dir) == 0.0;
    assert Sub(pose.pos, pt) == Scale(-d, pose.dir);
    DotScale(-d, pose.dir, n);
    if Dot(pose.dir, n) < 0.0 {
      MulPositive(d, -Dot(pose.dir, n));
    } else if Dot(pose.dir, n) > 0.0 {
      MulPositive(d, Dot(pose.dir, n));
    }
    TestsAreExact(o, pose, pt, n);
  }
}
