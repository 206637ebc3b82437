# Five-axis scanner simulator: kinematics, demo trajectory, point sampling and scan accumulation

The model covers the stateful core of a browser simulator for a five-axis gantry machine with a 3D scanner on its wrist. It has four parts:

- **Machine** (`machine.dfy`). The operator state is the `Axes` record: x, y, z in machine units, and A and B in degrees. The sliders set x, y and z in 0..100; the demo drives x over [-10, 110] and y over [-25, 125]. Each frame, every axis becomes exactly one coordinate of the kinematic chain:
  - the bridge translation along world z (from y);
  - the carriage translation along world x (from x);
  - the ram translation along world y (from z);
  - the B rotation about the z axis of the B group, which is world z;
  - the A rotation about the x axis of the A group. That group is nested inside the B group, so A turns about the wrist's x axis after the B rotation, which is world x only when B = 0;
  - both rotations are converted from degrees to radians.
- **Trajectory** (`trajectory.dfy`). The scripted demo is a function of the seconds elapsed since it started:
  - a linear approach from home (50, 50, 10) to the orbit start (-10, 50, 50) over 2 s;
  - a full ellipse around (50, 50) at z = 50, with the angle running from π to 3π over 20 s;
  - a linear return home over 3 s;
  - after 25 s, scanning stops, the wrist straightens, z goes to 20 and no further frame is requested.

  Each scheduled frame takes an approximate tool point: the carriage, bridge and ram offsets the machine uses for the target, on top of a fixed height of 5.8. From that point it aims the wrist at the object centre (0, 1.3, 0): A = -asin(dir.z) and B = atan2(dir.x, -dir.y), both in degrees.
- **Sampler** (`sampler.dfy`). A geometric lion (eight boxes and a cylinder tail) is sampled once into an index-aligned list of surface points and outward normals.
  - Boxes get ceil(area · 5000 · 4) samples. Each is on a random face, with that face's axis normal.
  - The cylinder gets 300 samples. Each is a radial normal times the radius, at a random height.
  - Every part is rotated, lifted onto the 1.3-high table and concatenated in list order.
- **Scan** (`scan.dfy`). Each frame while scanning, a point not yet scanned is added to the set of scanned indices when it passes three tests:
  - it is strictly between 0.1 and 2.3 away;
  - it is strictly inside the 75° viewing cone;
  - its normal has a positive component towards the scanner.

Two supporting modules hold the maths:

- `geometry.dfy` holds exact real vectors.
- `trig.dfy` holds square root, cosine, sine, arc sine, atan2 and the angle between vectors. These are uninterpreted functions carried in an `Oracle` value. `Trig.Valid` lists the only facts assumed about them:
  - pi > 0;
  - the square root of a non-negative number is non-negative and squares back;
  - cos π = cos 3π = -1, and sin π = sin 3π = 0;
  - asin 0 = 0;
  - atan2(0, c) = 0 for c > 0;
  - a non-zero vector makes angle 0 with itself.

The random numbers and the quaternion rotation of the sampler are parameters.

Where the code and its description differ, the model follows the code:

- No axis value is clamped anywhere in the modelled code. The trajectory drives x to -10 and beyond the 0..100 range.
- The cone test is a strict `<`.
- The zero-length look vector never occurs: the tool is always at least 2 units above the object centre.

## Model

| member | source | states |
|---|---|---|
| Machine.TravelOffset | components/MachineModel.tsx:33-41 | the carriage offset (from x) and the bridge offset (from y) lie in [-3, 3] for values in [0, 100], are zero exactly at 50 and positive exactly above 50 |
| Machine.RamOffset | components/MachineModel.tsx:44-47 | the ram offset lies in [-2.5, 0] for z in [0, 100], is zero exactly at z = 0 and negative exactly for z > 0 (the ram extends downwards) |
| Machine.JointsOf | components/MachineModel.tsx:32-57 | computes the joint coordinates of one frame from the axes: carriage from x, bridge from y, ram from z, and B and A in radians. Its contract states that, for axes in [0, 100], the carriage and bridge stay within [-3, 3] and the ram within [-2.5, 0]; that the carriage and bridge are centred exactly at 50; and that a zero A or B angle gives a zero rotation. Machine.HomeJoints, Machine.AxisChangesOneJoint and Machine.RotationsLinear carry its other properties |
| Machine.HomeJoints | components/MachineModel.tsx:32-57 | at home (50, 50, 10, 0, 0) the carriage and bridge are centred, the ram is at -0.25 and both rotations are 0 |
| Machine.OffsetsStrictlyIncreasing | components/MachineModel.tsx:35-40 | carriage and bridge offsets are strictly increasing in their axis |
| Machine.RamNonIncreasing | components/MachineModel.tsx:45-46 | a larger z never raises the ram |
| Machine.AxisChangesOneJoint | components/MachineModel.tsx:33-57 | changing one axis changes only its own joint coordinate; the other four stay as they were |
| Machine.RotationsLinear | components/MachineModel.tsx:50-57 | the A and B rotations are additive in the angle, 0 degrees gives 0 radians, and radToDeg recovers the axis angle |
| Trig.NormalizeUnit | App.tsx:116 | normalising a non-zero vector yields a unit vector |
| Trig.NormalizeDotSign | components/ScannedObject.tsx:146-147 | normalising the view vector does not change the sign of its dot product with a normal |
| Trig.DegRadRoundTrip | App.tsx:129-130 | radToDeg undoes degToRad, and degToRad is additive with 0 at 0 |
| Trajectory.PhaseAt | App.tsx:54-93 | computes the phase of the demo at an elapsed time. It is the approach exactly before 2 s, the orbit exactly from 2 s to before 22 s, the return exactly from 22 s to 25 s inclusive, and done exactly after 25 s. Trajectory.PhasesInOrder and Trajectory.TargetAt carry its properties |
| Trajectory.PhasesInOrder | App.tsx:54-106 | the phases approach, orbit, return, done follow each other in time and are never re-entered |
| Trajectory.TargetAt | App.tsx:68-106 | in the approach phase the target is the linear approach at elapsed / 2, in the orbit phase the ellipse at the orbit angle, and in the return phase the linear return at (elapsed - 22) / 3; y stays 50 during the approach, z is 50 during the orbit, and z stays within [10, 50] for every elapsed time in [0, 25] |
| Trajectory.StartsAtHome | App.tsx:70-80 | at 0 s the target is home (50, 50, 10) |
| Trajectory.ApproachMeetsOrbit | App.tsx:72-92 | the approach ends at the orbit point for θ = π, which is (-10, 50, 50), and 2 s gives θ = π |
| Trajectory.OrbitMeetsReturn | App.tsx:83-105 | 22 s gives θ = 3π, where the ellipse is back at (-10, 50, 50), the return start; 25 s gives home |
| Trajectory.ToolWorld | App.tsx:109-111 | the approximate tool point's world x and z are the machine's carriage and bridge offsets of the target, and its world y is 5.8 plus the machine's ram offset |
| Trajectory.ToolAboveLookTarget | App.tsx:109-116 | for z up to 100 the tool is at height at least 3.3, above the object centre at 1.3, so the look vector is never zero |
| Trajectory.LookAngles | App.tsx:122-130 | computes the wrist angles in degrees for a look direction, A from the arc sine of its z and B from atan2 of its x and negated y. A direction with no z component gives A = 0, and one with x = 0 and negative y gives B = 0. Trajectory.StraightDownIsZero carries the combined case |
| Trajectory.LookAt | App.tsx:113-130 | computes the wrist angles that aim from the approximate tool point at the object centre. When the target's y is the centre 50, the tool is level with the object centre along world z, and A = 0. Trajectory.AboveCentreLooksDown and Trajectory.HomeLooksDown carry the case above the centre |
| Trajectory.StraightDownIsZero | App.tsx:122-130 | looking straight down gives A = 0 and B = 0 |
| Trajectory.LookDirectionIsUnit | App.tsx:109-116 | every frame of the demo aims along a unit direction |
| Trajectory.AboveCentreLooksDown | App.tsx:109-130 | with the tool directly above the object centre the wrist angles are both 0 |
| Trajectory.CentredCarriageNoRotation | App.tsx:109-130 | with the carriage centred (x = 50) and z up to 100, the look-at B angle is 0 for every bridge position |
| Trajectory.HomeLooksDown | App.tsx:109-130 | at home the wrist angles are both 0 |
| Trajectory.Animate | App.tsx:50-134 | a frame is requested exactly while elapsed ≤ 25; after that scanning stops, x and y are kept, z = 20 and A = B = 0; before that the axes are the scheduled target and the look-at angles, and the scanning flag is kept |
| Trajectory.DemoStartsAtHome | App.tsx:50-134 | the frame at 0 s sets the axes to the home pose |
| Trajectory.DemoEndsAtHome | App.tsx:50-134 | the frame at exactly 25 s sets the axes back to the home pose |
| Sampler.LionShape | components/ScannedObject.tsx:18-35 | the lion is eight boxes followed by a cylinder of radius 0.065 and length 1.3 |
| Sampler.Ceil | components/ScannedObject.tsx:50 | Math.ceil returns the least integer not below its argument |
| Sampler.BoxSampleCount | components/ScannedObject.tsx:49-50 | the sample count is the area times density times 4, rounded up |
| Sampler.BoxSampleCountPositive | components/ScannedObject.tsx:49-52 | a box with positive dimensions gets at least one sample |
| Sampler.FaceOf | components/ScannedObject.tsx:54 | a random number in [0, 1) selects a face index in 0..5 |
| Sampler.BoxSample | components/ScannedObject.tsx:54-65 | computes the sample for one face and two offsets. For every face index and offsets, the normal is a unit axis vector and the point lies on the plane at half the box extent along that normal. Sampler.BoxSampleOnFace adds that, for offsets in [-0.5, 0.5), the point is inside the box |
| Sampler.BoxSampleOnFace | components/ScannedObject.tsx:54-65 | for u, v in [-0.5, 0.5) the sample is inside the box, its normal is a unit axis vector, and the point lies at half the box extent along that normal, which is positive |
| Sampler.BoxSamples | components/ScannedObject.tsx:45-71 | points and normals have equal length, one sample per count, and point i and normal i both come from draw i |
| Sampler.BoxSamplesOnFaces | components/ScannedObject.tsx:52-69 | every sample drawn from numbers in [0, 1) lies on a face of the box with that face's outward normal |
| Sampler.CylinderSample | components/ScannedObject.tsx:89-95 | the normal is horizontal and the point's x and z are the radius times the normal's x and z |
| Sampler.CylinderSampleHeight | components/ScannedObject.tsx:91 | the sample height lies in [-length/2, length/2) |
| Sampler.CylinderSamples | components/ScannedObject.tsx:88-95 | exactly 300 samples, each with a horizontal normal and a radial point, sample k built from draw k |
| Sampler.LionEveryPartSampled | components/ScannedObject.tsx:80-96 | every part of the lion contributes at least one sample |
| Sampler.PartSamples | components/ScannedObject.tsx:84-96 | a part yields equally many points and normals, as many as it draws |
| Sampler.Place | components/ScannedObject.tsx:98-112 | placing keeps the point and normal lists of the same length as before and as each other |
| Sampler.Concat | components/ScannedObject.tsx:74-113 | the concatenated point and normal lists have equal length, the total number of the parts' samples |
| Sampler.ConcatIndexAligned | components/ScannedObject.tsx:104-112 | sample i of part k is at the same index in the concatenated points and normals |
| Sampler.Cloud | components/ScannedObject.tsx:73-115 | the whole cloud has one normal per point (the per-index pairing is Sampler.CloudIndexing) |
| Sampler.PlacedParts | components/ScannedObject.tsx:80-113 | one placed sample list per part, each with one normal per point |
| Sampler.CloudIndexing | components/ScannedObject.tsx:98-112 | in the cloud, sample i of part k is the local point rotated and lifted onto the table, and its normal is the rotated local normal at the same index |
| Sampler.LionCloud | components/ScannedObject.tsx:18-35 | in the lion's cloud every part occupies a non-empty block in list order, and the cloud ends with the tail's 300 samples, each rotated by the tail's π/3 tilt and lifted to (0, 1.04 + 1.3, -1.3) with its rotated normal at the same index |
| Scan.PassesTests | components/ScannedObject.tsx:137-148 | the three acquisition tests of one point as the frame performs them. A point that passes is never at the scanner's own position. Scan.TestsAreExact relates the tests to the square-root-free condition, and Scan.AxisPointAcquired gives the case of a point straight ahead |
| Scan.TestsAreExact | components/ScannedObject.tsx:137-148 | the square-root and normalising tests accept exactly the points whose squared distance is strictly between 0.01 and 5.29, that are inside the cone, and whose normal has a positive dot product with the un-normalised vector to the scanner |
| Scan.Tick | components/ScannedObject.tsx:118-157 | a frame never removes an index and does nothing while not scanning |
| Scan.ScanTick | components/ScannedObject.tsx:118-157 | the loop computes the frame's set; changed is true exactly when the set grew; every added index is a valid point index that passes the tests; and every acquirable point is in the result |
| Scan.TickIdempotent | components/ScannedObject.tsx:131-134 | a second frame from the same pose adds nothing (so it reports no change) |
| Scan.Run | components/ScannedObject.tsx:118-157 | computes the scanned set after one frame per pose, in order, each frame starting from the set the previous frame committed. The starting set is never lost. Scan.RunMonotone, Scan.RunIsUnionOfPoses and Scan.RunWithinPoints carry its other properties, under the same assumption |
| Scan.RunMonotone | components/ScannedObject.tsx:127-156 | over a sequence of committed frames the scanned set only grows |
| Scan.RunIsUnionOfPoses | components/ScannedObject.tsx:118-157 | after a sequence of committed frames an index is scanned exactly when it was before or its point is acquirable from some pose |
| Scan.RunWithinPoints | components/ScannedObject.tsx:131-149 | frames only ever add indices of existing points |
| Scan.InRangeOnAxis | components/ScannedObject.tsx:141 | for a positive distance, the strict range test on the distance agrees with the test on its square |
| Scan.AxisPointAcquired | components/ScannedObject.tsx:137-150 | a point straight ahead at distance d is acquired exactly when 0.1 < d < 2.3 and its normal points against the view direction |

## Left out

- Rendering: the JSX scene graphs, materials, the frustum cone mesh and the packing of scanned positions into a Float32Array.
- The camera's world position and direction come from three.js matrix composition. The model takes the scanner pose as an input to the frame.
- Sampler.Place: applyQuaternion of the part's Euler rotation is a parameter `rotate`. The model does not prove it preserves lengths, so placed normals are not proved to be unit vectors.
- requestAnimationFrame, Date.now and useFrame scheduling: elapsed time and the scanning flag are parameters, and a frame request is a boolean in the result.
- Scan.Run: assumes that each frame starts from the set the previous frame committed. The frame copies `scannedIndices` from the last rendered closure (components/ScannedObject.tsx:127) and replaces the state wholesale (:155-156), not through a functional update. If a second frame runs before the re-render, it starts from the older set, and its write drops the previous frame's additions. The model does not cover that interleaving, so monotonicity and the union property hold only across committed frames.
- Math.random: the draws are parameters, and the contracts hold for draws in [0, 1).
- The reset button's page reload, the slider control panel, the advice chat panel with its network service, and the build configuration.
- Floating-point rounding: all arithmetic is exact over the reals.
- Sampler.CylinderSample: the normal is not proved to be a unit vector, because cos² + sin² = 1 is not among the facts assumed of the trigonometric functions.
- Scan.TestsAreExact: the cone test stays an uninterpreted comparison of the three.js angle with half the field of view.
- Trajectory.ToolWorld: the look-at aims from an approximate tool point 5.8 high, not from the machine's camera. At zero wrist angles the machine's camera sits 0.4 further along x, 1.3 further along z and 0.15 lower (components/MachineModel.tsx:106-176). The model states only that both use the same carriage, bridge and ram offsets.
- Axis ranges during the demo: no invariant keeps x and y within 0..100, because the approach and orbit drive them outside that range.
