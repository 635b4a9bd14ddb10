# Ruohobot core, modelled and verified in Dafny

Ruohobot is a Python robot-lawnmower controller for a Raspberry Pi. This project models the core of its control stack and proves properties of that model:

- **LiDAR manager:** reads the LD-19 sensor's 47-byte serial packets and checks their CRC-8. It assembles one 360-degree sweep, sorts it by angle and keeps one point per whole degree. It also simulates a sweep and answers "which obstacles lie in this direction".
- **SLAM mapper:** rasterises a ray with Bresenham's algorithm from the robot to each usable LiDAR point, then lowers the occupancy of every cell the ray passes through and raises the cell it ends in. It also integrates odometry into a pose history.
- **State machine:** five operational states, a fixed table of allowed transitions and a forced `set_state`.
- **Two motor controllers:**
  - the I2C Motoron three-channel controller in `src/core/motors.py`: clamped, optionally reversed per-motor speeds and a latched emergency stop;
  - the PWM two-wheel shield in `src/hardware/motors.py`: duty cycles and an enable pin.

  Both normalise a differential-drive command the same way.
- **Navigation loop:** a timed stop-turn-resume obstacle avoidance, waypoint and patrol behaviour, and one motor command per update.
- **Safety monitor:** a rate-limited check that rebuilds an ordered list of violations, plus a latched emergency stop.

## Form of the model

- **Mutable objects are classes.** The source objects that mutate their attributes become classes whose methods carry `modifies` clauses: `LidarManager`, `SLAMSystem`, `StateMachine`, both `MotorController`s, `NavigationSystem` and `SafetySystem`.
  - Each method states its whole new state.
  - The occupancy grid is an `array2<int>` updated in place.
- **Loops are `while`/`for` loops.** The source's loops become loops with invariants: the CRC fold, the serial read loop, the de-duplication, the simulated sweep, the cone query, Bresenham's loop, the ray update, the grid update, `set_all_speeds` and the obstacle check.
- **Each loop has a specification function.** The loop is proved equal to a recursive function, and the properties are proved about that function: `Crc8`, `Collect`, `FirstPerBucket`, `ConeDistances`, `Line`, `RayValue`/`CellAfter` and `SpeedsAfter`/`CommandsAfter`.
- **Outside inputs are parameters.** The clock, the sensor readings, the serial port's read results, and `cos`/`sin` are all parameters.
  - A sensor query that raises is `None`.
  - The serial port is a finite sequence of read results. Running out of them is the one-second timeout.
- **Hardware is a log.** I2C and GPIO are sinks: the commands, duty cycles and pin writes sent are appended to logs that the contracts describe.
- **Grid values are integers.** They are kept in units of 0.05, so cells are exact:
  - a fresh cell is 10 (0.5);
  - an occupied cell is 20 (1.0);
  - a hit adds 2 and is capped at 20;
  - a pass-through subtracts 1 and is floored at 0.

## What is proved

**LD-19 packet**
- The table-driven CRC loop computes the fold `crc = table[crc ^ b]`.
- The 256-entry table equals eight MSB-first shift steps with polynomial 0x4D, and it is one-to-one.
- As a result, changing any single byte of a packet makes it fail the frame check.
- Decoding and encoding a packet are mutual inverses on accepted packets and on well-formed field sets.

**Angles**
- The twelve interpolated angles start at the start angle and end at the end angle, modulo 360.
- Consecutive angles are one step apart, across zero as well.

**Sweep assembly**
- The read loop is the framing layer followed by packet assembly.
- In closed form: every point up to and including the packet that wraps is kept, and nothing after it.
- The first packet never completes a sweep.

**Finished scan and cone query**
- The finished scan is ordered by angle.
- It has one point per whole degree, with no degree lost, and each kept point is the first of its degree in the stable sort.
- The cone query returns the distances of exactly the valid points within the half-cone, nearest first, as a permutation.
- For directions in [0, 360) the folded angular difference is the shorter arc.

**Bresenham line**
- It has `max(|dx|, |dy|) + 1` cells, starting at `(x0, y0)` and ending at `(x1, y1)`.
- Every step moves each coordinate by 0 or 1 toward the end.
- No cell leaves the bounding box, and no cell repeats.

**Occupancy grid**
- A ray hits its last cell and passes through its earlier cells, each only when inside the grid, and leaves every other cell alone. An end point outside the grid is therefore not marked at all.
- Cells stay within [0, 1].
- Hits and passes saturate: 10 hits fill any cell, 20 passes clear it.
- A scan without usable points changes nothing.

**Motors**
- Stored speeds never exceed the maximum.
- A latched emergency stop suppresses every speed command.
- Normalisation keeps both wheels in [-1, 1], keeps their ratio and their signs, and leaves in-range commands alone.

**State machine**
- The transition table's shape. For example, the emergency stop can be left only for idle, and low power is entered only from manual control or autonomous.
- Requests and forced sets behave as the source does, including the callback invocations.

**Navigation**
- The avoidance manoeuvre's timing.
- Because no update leaves the mode at obstacle avoidance, every update that sees an obstacle restarts the manoeuvre.
- Every update sends exactly one motor command.

**Safety**
- A violation is reported exactly when its check fails.
- Violations are reported in a fixed order without repeats.
- A reading that cannot be taken is a violation.

## Model

| member | source | states |
|---|---|---|
| Ld19Crc.ComputeCrc8 | src/core/lidar.py:230-233 | the table-driven loop returns the left fold of `crc := table[crc ^ b]` from 0 over the data |
| Ld19Crc.TableIsBitwise | src/core/lidar.py:206-229 | every entry of the SDK's 256-entry table equals eight MSB-first shift steps of the CRC-8 with polynomial 0x4D applied to its index |
| Ld19Crc.BitwiseInjective | src/core/lidar.py:206-229 | the bitwise CRC-8 step map sends different bytes to different values |
| Ld19Crc.TableInjective | src/core/lidar.py:206-229 | no two table indices share an entry, so the table is a permutation of the byte values |
| Ld19Crc.Crc8Snoc | src/core/lidar.py:231-232 | appending a byte to the message performs exactly one table step |
| Ld19Crc.StepSeparatesBytes | src/core/lidar.py:232 | from the same running checksum, two different bytes give different checksums |
| Ld19Crc.StepSeparatesChecksums | src/core/lidar.py:232 | the same byte keeps two different running checksums different |
| Ld19Crc.DivergenceStep | src/core/lidar.py:231-232 | prefix checksums that differ still differ after one more common byte |
| Ld19Crc.Crc8Prefix | src/core/lidar.py:231-232 | the checksum of a one-longer prefix is one table step beyond the shorter one |
| Ld19Crc.DivergencePersists | src/core/lidar.py:231-233 | messages whose prefix checksums differ and which agree afterwards have different checksums |
| Ld19Crc.SingleByteChangeDetected | src/core/lidar.py:204-233 | changing any one byte of a message changes its CRC-8 |
| Ld19.Le16 | src/core/lidar.py:260 | a little-endian 16-bit field is below 65536 |
| Ld19.Le16Bytes | src/core/lidar.py:260 | the two bytes written for a 16-bit value read back as that value |
| Ld19.Le16BytesOfLe16 | src/core/lidar.py:260 | reading two bytes as a field and writing it back gives the same two bytes |
| Ld19.Bits | src/core/lidar.py:256 | the checksum sees as many bytes as the packet prefix holds |
| Ld19.DecodeSamples | src/core/lidar.py:262-267 | record `i` is read from bytes `6+3i`, `7+3i` (distance, little-endian) and `8+3i` (intensity), and every record fits its fields |
| Ld19.DecodePacket | src/core/lidar.py:260-269 | a decoded 47-byte packet has 16-bit fields and exactly twelve records that fit |
| Ld19.SampleBytes | src/core/lidar.py:262-267 | twelve records occupy exactly 36 bytes, three per record |
| Ld19.PacketBody | src/core/lidar.py:248-269 | the checksummed part of a packet is 46 bytes long |
| Ld19.EncodePacket | src/core/lidar.py:248-258 | every encoding of a well-formed field set passes the header, length and CRC checks |
| Ld19.SamplesTileRecordBytes | src/core/lidar.py:263-267 | re-encoding the first `n` decoded records gives back bytes 6 to `6+3n` of the packet |
| Ld19.TileStep | src/core/lidar.py:263-267 | one more decoded record extends the re-encoded bytes by its three packet bytes |
| Ld19.AppendRecord | src/core/lidar.py:264-266 | appending the record read from three bytes appends exactly those bytes to the encoding |
| Ld19.SampleBytesAt | src/core/lidar.py:264-266 | record `i` of an encoding sits at offsets `3i` to `3i+3` |
| Ld19.BodyLayout | src/core/lidar.py:248-269 | the header, speed, start angle, records, end angle and timestamp sit at the offsets the parser reads |
| Ld19.RecordDecodes | src/core/lidar.py:263-267 | each record of an encoding decodes to the record that was encoded |
| Ld19.DecodeEncode | src/core/lidar.py:260-269 | decoding an encoded well-formed field set recovers every field |
| Ld19.EncodeDecode | src/core/lidar.py:245-269 | an accepted packet is exactly the encoding of its decoded fields |
| Ld19.BodySplit | src/core/lidar.py:260-269 | the first 46 bytes are the concatenation of the field slices the parser reads |
| Ld19.SingleByteCorruptionRejected | src/core/lidar.py:248-258 | any single corrupted byte of an accepted packet makes it fail the frame check |
| Ld19.BitsSingleChange | src/core/lidar.py:256 | changing one byte changes the checksum of a byte string |
| Ld19.BitsDifferAt | src/core/lidar.py:256 | different bytes are seen by the checksum as different bit patterns |
| Ld19.Mod360 | src/core/lidar.py:275 | Python's `% 360.0` lands in [0, 360) and differs from its argument by whole turns |
| Ld19.Mod360Shift | src/core/lidar.py:275 | adding whole turns does not change the reduced angle |
| Ld19.Mod360InRange | src/core/lidar.py:275 | an angle already in [0, 360) is unchanged |
| Ld19.InterpolatedAngles | src/core/lidar.py:271-275 | a packet gets twelve angles, each in [0, 360) |
| Ld19.TimesIsProduct | src/core/lidar.py:275 | `i` steps added one at a time equal `i * step` |
| Ld19.InterpolatedAngle | src/core/lidar.py:275 | each interpolated angle is in [0, 360) |
| Ld19.InterpolationEnds | src/core/lidar.py:271-275 | the first angle is the start angle and the last the end angle, modulo 360, including when the packet crosses zero |
| Ld19.Mod360AddReduced | src/core/lidar.py:275 | reducing before adding a further amount does not change the result modulo 360 |
| Ld19.InterpolationEvenlySpaced | src/core/lidar.py:274-275 | consecutive angles differ by one step (span / 11), modulo 360 |
| Ld19.InterpolationExample | src/core/lidar.py:271-275 | a packet from 0 to 0.33 degrees has its points exactly 0.03 degrees apart |
| Ld19.InterpolationAcrossZero | src/core/lidar.py:271-275 | a packet from 355 to 0.5 degrees wraps: angles 9, 10 and 11 are 359.5, 0 and 0.5 |
| Ld19.PacketPoints | src/core/lidar.py:283-290 | a packet contributes twelve points with angles in [0, 360), each valid exactly when its raw distance is strictly between 50 and 12000 mm |
| Ld19.Take | src/core/lidar.py:245-252 | a serial read of `n` bytes returns a prefix of the available bytes, at most `n` long and exactly `n` when enough are there |
| Ld19.Absorb | src/core/lidar.py:277-290 | an accepted packet always appends its twelve points and records its end angle, even when it completes the sweep, and the first packet never completes it |
| Ld19.AcceptedPackets | src/core/lidar.py:242-258 | the packets the framing accepts are all well formed |
| Ld19.AcceptedPacketsPassCheck | src/core/lidar.py:245-258 | every accepted packet is the decoding of bytes that pass the header, length and CRC checks |
| Ld19.CollectIsFramingThenAssembly | src/core/lidar.py:242-297 | the read loop equals framing the reads into accepted packets and then assembling those packets |
| Ld19.AllPoints | src/core/lidar.py:283-290 | `k` packets contribute `12k` points |
| Ld19.FirstPacketNeverWraps | src/core/lidar.py:276-280 | the first packet of a read never completes a sweep |
| Ld19.WrapsAtShift | src/core/lidar.py:277-281 | the wrap test for a packet depends only on it and the previous packet's end angle |
| Ld19.AssembleClosedForm | src/core/lidar.py:277-291 | if packet `n-1` is the first whose start lies more than 180 degrees before the previous end, the points of packets 0 to `n-1` are kept and the sweep is complete; if none wraps, all points are kept and the sweep stays open |
| Ld19.FirstPacketPoints | src/core/lidar.py:283-290 | absorbing the first packet and then `n-1` more gives the points of the first `n` packets |
| Ld19.AllPointsCons | src/core/lidar.py:283-290 | the points of several packets are the first packet's points followed by the rest |
| Ld19.RoundHalfEven | src/core/lidar.py:304 | Python's `round` gives an integer within 0.5, and an even one on a tie |
| Ld19.RoundingExamples | src/core/lidar.py:304 | 359.6 rounds to 360, 359.4 to 359, and 0.5, 1.5, 2.5 to 0, 2, 2 |
| Ld19.FirstInBucketSnoc | src/core/lidar.py:301-307 | the first point of a degree in an extended list is the old first one, or the new point when it is the first of its degree |
| Ld19.FirstInBucketPresent | src/core/lidar.py:301-307 | a degree has a first point exactly when some point rounds to it |
| Ld19.BucketSetSnoc | src/core/lidar.py:301-307 | adding a point adds exactly its degree to the set of degrees seen |
| Ld19.FirstPerBucketBuckets | src/core/lidar.py:301-307 | the de-duplicated points cover exactly the input's degrees, and no two share a degree |
| Ld19.FirstPerBucketKeepsFirst | src/core/lidar.py:301-307 | each kept point is the first point of its degree in the input |
| Ld19.FirstPerBucketSubsequence | src/core/lidar.py:301-307 | the kept points appear in the input in the same order |
| Ld19.SubsequenceMembers | src/core/lidar.py:301-307 | every element of a subsequence is an element of the whole |
| Ld19.SubsequenceSorted | src/core/lidar.py:299-307 | deleting points from a list sorted by angle leaves it sorted |
| Ld19.FinishPointsProperties | src/core/lidar.py:298-307 | the finished scan is sorted by angle and is a subsequence of the sorted input; it has one point per whole degree, loses no degree, and each point is the first of its degree after the stable sort |
| Ld19.SameElementsSameBuckets | src/core/lidar.py:299-307 | sorting does not change the set of degrees present |
| Scans.ValidIffRawRange | src/core/lidar.py:265 | a distance in millimetres is valid exactly when it is strictly between 50 and 12000 |
| Sorting.InsertPermutes | src/core/lidar.py:299 | inserting keeps every element with its multiplicity |
| Sorting.InsertSorted | src/core/lidar.py:299 | inserting into a sorted sequence keeps it sorted |
| Sorting.InsertWithKey | src/core/lidar.py:299 | the inserted element comes after every element with an equal key |
| Sorting.WithKeyAllLarger | src/core/lidar.py:299 | a sorted sequence starting above a key has no element with that key |
| Sorting.WithKeySnoc | src/core/lidar.py:299 | appending an element appends it to its key's subsequence and to no other |
| Sorting.SortBySorted | src/core/lidar.py:299 | `sorted(xs, key=k)` is ordered by the key |
| Sorting.SortByPermutes | src/core/lidar.py:299 | `sorted(xs, key=k)` is a permutation of its input |
| Sorting.SortByStable | src/core/lidar.py:299 | elements with equal keys keep their input order (stability) |
| Sorting.SortBySortedIdentity | src/core/lidar.py:299 | an already sorted input is returned unchanged |
| Sorting.InsertAtEnd | src/core/lidar.py:299 | an element with a key at least every other key is inserted last |
| Lidar.CollectSweep | src/core/lidar.py:235-297 | the serial read loop returns the points of the sweep as the framing and assembly functions define them |
| Lidar.KeepFirstPerDegree | src/core/lidar.py:301-307 | the `seen_angles` loop keeps exactly the first point of every whole degree, in order |
| Lidar.SimulatedSweep | src/core/lidar.py:143-148 | the simulated sweep is 360 readings: 4000 mm, except 1000 mm from 170 to 190 degrees, 2000 mm at 90 and 1500 mm at 270 |
| Lidar.ProcessSimulatedScan | src/core/lidar.py:178-196 | point `i` is at `i` degrees, the reading in metres, intensity 0, valid when strictly between 5 cm and 12 m; the count and timestamp are recorded |
| Lidar.AngleDifferenceIsCircular | src/core/lidar.py:352-355 | for angles in [0, 360) the folded difference is the shorter way round, in [0, 180] |
| Lidar.AngleDifferenceOutsideRange | src/core/lidar.py:352-357 | for a direction outside [0, 360) the folded difference can be negative: a point at 350 degrees is in the 30-degree cone of -30 |
| Lidar.ConeDistancesSnoc | src/core/lidar.py:348-358 | one more point adds its distance to the cone exactly when it is valid and within the half-cone |
| Lidar.ConeObstacles | src/core/lidar.py:345-358 | the cone loop collects, in scan order, the distances of the valid points within half the cone |
| Lidar.SortedConeObstacles | src/core/lidar.py:345-360 | the cone result is sorted nearest first and is a permutation of the cone's distances |
| Lidar.ConeDistancesMembers | src/core/lidar.py:348-358 | a distance is reported exactly when some valid point at that distance lies within the half-cone |
| Lidar.LidarManager.constructor | src/core/lidar.py:57-110 | simulation is used when requested, when the sensor is disabled or when the port fails to open, and otherwise the port is open; no scan, empty history, zero counters |
| Lidar.LidarManager.StartScanning | src/core/lidar.py:114-122 | returns false and changes nothing when already scanning, otherwise starts scanning and returns true |
| Lidar.LidarManager.StopScanning | src/core/lidar.py:124-135 | stops scanning and closes the serial port; scans and counters are kept |
| Lidar.LidarManager.ReadLd19Scan | src/core/lidar.py:198-316 | no scan when the port is not open; otherwise a scan (even an incomplete one) whose points are the collected sweep, stably sorted by angle and reduced to one per degree, with the count and timestamp |
| Lidar.LidarManager.PublishScan | src/core/lidar.py:159-162 | the scan becomes current, joins the 100-scan history (the oldest is dropped first) and is counted |
| Lidar.LidarManager.ScanOnce | src/core/lidar.py:140-171 | one pass of the scanning loop publishes its scan: in simulation the 360-point scan of the fixed sweep (point `i` at `i` degrees with its simulated reading), with an open port the finished sweep read from it; either becomes current, joins the 100-scan history, is counted and timed; with the port closed nothing changes |
| Lidar.LidarManager.GetObstaclesInDirection | src/core/lidar.py:340-360 | with no current scan the result is empty; otherwise it is the cone's distances, nearest first |
| Common.BoundedAppend | src/core/lidar.py:87 | `deque(maxlen=N).append`: the history never exceeds `N` and holds the most recent items, oldest dropped first |
| Common.BoundedAppendKeepsNewest | src/core/slam.py:52 | the newest item is last, and only the oldest is lost when the history is full |
| Common.Truncate | src/core/slam.py:120-123 | Python's `int()` on a float truncates toward zero |
| Common.ClampReal | src/hardware/motors.py:95-96 | `max(lo, min(hi, x))` lies in [lo, hi] and is `x` when `x` is in range |
| Bresenham.NextReachable | src/core/slam.py:152-158 | one pass of the loop body keeps the error term consistent with the position and moves each coordinate by 0 or 1 |
| Bresenham.NoStepPastEnd | src/core/slam.py:152-158 | once a coordinate reaches its end, the error term prevents any further step along it |
| Bresenham.LineFromUnfold | src/core/slam.py:147-158 | the loop appends the current cell and stops at the end cell, or continues from the next state |
| Bresenham.NextCell | src/core/slam.py:152-158 | the loop body's updates of `x`, `y` and `err` are those of the next loop state |
| Bresenham.Advance | src/core/slam.py:147-158 | one pass of the loop, as written, appends the current cell and moves to the next state |
| Bresenham.BresenhamLine | src/core/slam.py:137-160 | `_bresenham_line` returns exactly the cell sequence `Line(x0, y0, x1, y1)` |
| Bresenham.StartReachable | src/core/slam.py:140-146 | the start state with `err = dx - dy` satisfies the loop invariant |
| Bresenham.AtEndIff | src/core/slam.py:149 | the loop is at `(x1, y1)` exactly when it has made all its steps on both axes |
| Bresenham.LineFromEnds | src/core/slam.py:147-150 | the loop terminates, its first cell is the start and its last cell is `(x1, y1)` |
| Bresenham.MajorAxisAdvances | src/core/slam.py:152-158 | every pass advances along the longer axis |
| Bresenham.LineFromLength | src/core/slam.py:147-158 | the cells left to output are the remaining steps along the longer axis, plus one |
| Bresenham.LineShape | src/core/slam.py:137-160 | the line has `max(|dx|, |dy|) + 1` cells, starts at `(x0, y0)` and ends at `(x1, y1)` |
| Bresenham.LineFromUnitSteps | src/core/slam.py:152-158 | consecutive cells move by 0 or one unit toward the end on each axis, never by 0 on both |
| Bresenham.LineFromWithinBox | src/core/slam.py:137-160 | every cell lies between the end points on both axes |
| Bresenham.LineFromDistinct | src/core/slam.py:147-158 | every later cell is further from the start, so no cell repeats |
| Bresenham.LineSteps | src/core/slam.py:137-160 | the whole line moves in unit steps, stays in the bounding box and has no repeated cell |
| Bresenham.HorizontalLineFrom | src/core/slam.py:147-158 | a horizontal line to the right outputs the remaining row of cells |
| Bresenham.DiagonalLineFrom | src/core/slam.py:147-158 | a 45-degree line outputs the remaining diagonal cells |
| Bresenham.HorizontalLine | src/core/slam.py:137-160 | a horizontal line from `x0` to `x1` is the row of cells between them |
| Bresenham.DiagonalLine | src/core/slam.py:137-160 | a 45-degree line is the diagonal run of cells |
| Bresenham.StraightLineExample | src/core/slam.py:137-160 | the line from (0,0) to (5,0) is the six cells along x |
| Bresenham.DiagonalLineExample | src/core/slam.py:137-160 | the line from (0,0) to (3,3) is the four diagonal cells |
| Slam.Hit | src/core/slam.py:132 | a hit raises an in-range cell by 0.1, capped at 1.0 |
| Slam.Free | src/core/slam.py:135 | a pass lowers an in-range cell by 0.05, floored at 0.0 |
| Slam.HitsSaturate | src/core/slam.py:132 | after `n` hits a cell holds `min(1.0, v + 0.1n)`, so ten hits fill any cell |
| Slam.FreesSaturate | src/core/slam.py:135 | after `n` passes a cell holds `max(0.0, v - 0.05n)`, so twenty passes clear any cell |
| Slam.WorldZeroIsCentre | src/core/slam.py:46-48 | for any non-zero resolution, negative included, the robot's start, world (0, 0), falls in the middle cell of each grid axis |
| Slam.RayValueBounds | src/core/slam.py:128-135 | a ray keeps a cell within [0, 1], only its last cell can grow, and cells off the ray are unchanged |
| Slam.CellAfterInRange | src/core/slam.py:99-135 | whatever rays are cast, a cell that starts within [0, 1] stays within it |
| Slam.CellAfterUntouched | src/core/slam.py:99-135 | a cell that no ray crosses keeps its value |
| Slam.CellAfterSnoc | src/core/slam.py:105-115 | one more ray applies that ray's effect to the value left by the earlier ones |
| Slam.PrefixValueStep | src/core/slam.py:128-135 | writing the `i`-th cell of a ray with no repeated cells affects only that cell, as hit (last) or pass (earlier) |
| Slam.PrefixValueWhole | src/core/slam.py:128-135 | after the whole ray, each cell holds the ray's effect on it |
| Slam.SlamSystem.constructor | src/core/slam.py:31-57 | the grid has shape `[height, width]` with every cell 0.5; the origin is centred; the pose is zero; the history is empty; mapping is off; any resolution is accepted, unvalidated as in the source |
| Slam.SlamSystem.StartMapping | src/core/slam.py:64-74 | idempotent; starts the LiDAR only when it is not already scanning, and changes no other LiDAR field |
| Slam.SlamSystem.StopMapping | src/core/slam.py:76-82 | idempotent; turns mapping off and leaves the LiDAR running |
| Slam.SlamSystem.UpdateRay | src/core/slam.py:117-135 | each in-bounds cell takes the ray's effect: hit when it is the line's last cell, pass when it is an earlier cell, unchanged otherwise; out-of-bounds cells are skipped; with a zero resolution the index division raises before any write, and the grid is unchanged |
| Slam.SlamSystem.MarkRay | src/core/slam.py:128-135 | the enumerate loop writes exactly the ray's effect into every cell, and cells stay in range |
| Slam.SlamSystem.RayLinesSnoc | src/core/slam.py:105-115 | one more scan point adds its ray exactly when it is valid and within the maximum range |
| Slam.SlamSystem.UnusableScanCastsNoRay | src/core/slam.py:105-107 | a scan without a valid in-range point casts no ray and leaves every cell unchanged |
| Slam.SlamSystem.UpdateOccupancyGrid | src/core/slam.py:99-115 | every cell takes, in scan order, the effects of the rays that the usable points cast from the current pose; with a zero resolution the first usable point raises, the grid is unchanged, and the call fails exactly when some point is usable |
| Slam.SlamSystem.ProcessLidarScan | src/core/slam.py:84-97 | ignored when not mapping; otherwise the grid takes the scan's rays and the scan is counted and timed; when the grid update raises (zero resolution with a usable point) the handler swallows the error, and neither the grid nor the count nor the time changes |
| Slam.SlamSystem.UpdateOdometry | src/core/slam.py:162-183 | the first call only records the time; a later call with a positive interval turns by `angular * dt`, moves along the new heading and appends one pose to the 1000-pose history |
| States.Parse | src/core/state_machine.py:12-18 | a parsed name is the value of the state it yields |
| States.ParseName | src/core/state_machine.py:12-18 | every state's value parses back to that state |
| States.ParseIffName | src/core/state_machine.py:12-18 | `RobotState(name)` succeeds exactly when the name is some state's value |
| States.EmergencyStopLeadsOnlyToIdle | src/core/state_machine.py:45-51 | by request, the emergency stop can be left only for idle |
| States.LowPowerEntry | src/core/state_machine.py:45-51 | low power can be requested only from manual control or autonomous |
| States.TableShape | src/core/state_machine.py:45-51 | every state can request the emergency stop and idle, and no state lists itself |
| States.StateMachine.constructor | src/core/state_machine.py:37-42 | starts in the configured default state, with no previous state and no callbacks |
| States.StateMachine.Update | src/core/state_machine.py:55-65 | returns the current state's value; no automatic transition fires |
| States.StateMachine.RegisterStateCallback | src/core/state_machine.py:138-146 | the latest registration for a state replaces earlier ones |
| States.StateMachine.NotifyStateChange | src/core/state_machine.py:129-136 | only the current state's callback runs, given the new and the previous state's values |
| States.StateMachine.TransitionTo | src/core/state_machine.py:100-121 | succeeds exactly for staying put or a listed transition; a real transition records the previous state and notifies; a failure changes nothing |
| States.StateMachine.RequestStateChange | src/core/state_machine.py:67-82 | an unknown name fails and changes nothing; a known one succeeds exactly when the table allows it; a real transition records the previous state and runs the new state's callback, if registered, with the new and old state names; otherwise nothing changes |
| States.StateMachine.SetState | src/core/state_machine.py:84-98 | any known name becomes current regardless of the table, and the old state becomes previous even when they are equal; an unknown name changes nothing |
| Drive.Magnitude | src/core/motors.py:152 | the larger wheel magnitude bounds both wheels |
| Drive.DivideWithinUnit | src/core/motors.py:153-155 | dividing a wheel by the larger magnitude keeps it within [-1, 1] |
| Drive.Normalise | src/core/motors.py:151-155 | both wheels end in [-1, 1], in-range commands are unchanged, and an out-of-range command puts the faster wheel at full magnitude |
| Drive.NormaliseKeepsRatio | src/core/motors.py:151-155 | normalising keeps the ratio between the two wheels |
| Drive.NormaliseKeepsSigns | src/hardware/motors.py:102-106 | normalising keeps each wheel's direction of rotation |
| Motoron.ClampSpeed | src/core/motors.py:112 | the clamped speed is within the maximum and equals the request when that is in range |
| Motoron.AppliedBound | src/core/motors.py:111-116 | the speed sent is within the maximum, and reversal only flips its sign |
| Motoron.EmergencySuppresses | src/core/motors.py:107-109 | while the emergency stop is latched, no sequence of speed commands changes a speed or sends anything |
| Motoron.SpeedsAfterKeepsTable | src/core/motors.py:103-123 | speed commands keep exactly motors 1 to 3 in the table, each within the maximum |
| Motoron.AfterSnoc | src/core/motors.py:132-133 | one more `set_speed` call applies its own effect after the earlier ones |
| Motoron.ToMotorSpeed | src/core/motors.py:158-159 | `int(w * max_speed)` of a normalised wheel is within the maximum, so the clamp never changes it |
| Motoron.WheelSpeeds | src/core/motors.py:143-159 | both differential-drive motor speeds are within the maximum |
| Motoron.ZeroCommandsAll | src/core/motors.py:170-172 | stopping sends zero to motors 1, 2 and 3, in that order |
| Motoron.MotorController.constructor | src/core/motors.py:29-60 | all three speeds zero, no emergency stop, the controller initialised once |
| Motoron.MotorController.SetMotorSpeed | src/core/motors.py:95-123 | an unknown motor or an active emergency stop changes nothing; otherwise the clamped, possibly reversed speed is sent and stored for that motor only |
| Motoron.MotorController.SetAllSpeeds | src/core/motors.py:125-133 | the same as one `set_speed` per entry, in order |
| Motoron.MotorController.SetVelocity | src/core/motors.py:135-163 | motors 1 and 2 get the normalised left and right speeds through `set_speed`, and motor 3 is untouched |
| Motoron.MotorController.ZeroAll | src/core/motors.py:170-172 | every motor is sent and stores zero, in order 1, 2, 3 |
| Motoron.MotorController.Stop | src/core/motors.py:167-175 | all motors are set to zero and the emergency latch is untouched |
| Motoron.MotorController.EmergencyStop | src/core/motors.py:177-187 | latches the stop, then sets all motors to zero |
| Motoron.MotorController.ResetEmergencyStop | src/core/motors.py:189-197 | clears the latch and reinitialises the controller; speeds are kept |
| PwmMotors.WheelCommands | src/hardware/motors.py:94-106 | after clamping speed and direction to [-1, 1], the wheels are `speed ± direction`, normalised into [-1, 1]; when `|speed| + |direction| <= 1` they are exactly `speed ± direction` |
| PwmMotors.WheelCommandsSymmetry | src/hardware/motors.py:98-100 | going straight drives both wheels equally, and a pure turn drives them in opposite senses |
| PwmMotors.DutyOf | src/hardware/motors.py:132-133 | the duty cycle is the wheel's magnitude times the maximum, between 0 and the maximum |
| PwmMotors.MotorController.constructor | src/hardware/motors.py:38-76 | enabled unless GPIO is present and its set-up fails; a successful set-up raises the enable pin |
| PwmMotors.MotorController.SetMotorSpeeds | src/hardware/motors.py:117-143 | with GPIO, both channels get the duty cycles of the wheel magnitudes; without it nothing is written |
| PwmMotors.MotorController.SetVelocity | src/hardware/motors.py:78-115 | ignored during an emergency stop or when disabled; otherwise the clamped speed and direction are stored and the normalised wheel duties written |
| PwmMotors.MotorController.Stop | src/hardware/motors.py:145-150 | speed and direction zero, both channels at zero duty |
| PwmMotors.MotorController.EmergencyStop | src/hardware/motors.py:152-163 | latches the stop, zeroes the motors and pulls the enable pin low, so the controller reports unhealthy |
| PwmMotors.MotorController.ResetEmergencyStop | src/hardware/motors.py:165-176 | only a latched stop is reset, raising the enable pin again; health then follows the enabled flag |
| Navigation.AvoidanceMove | src/core/navigation.py:129-150 | stop for the first second; then, until two seconds, turn toward the side with more clearance (right on ties) at turn speed; then forward at half speed |
| Navigation.CommandFor | src/core/navigation.py:182-201 | each driving mode maps to its motor command, and obstacle avoidance to none |
| Navigation.AvoidanceStartsWithStop | src/core/navigation.py:124-135 | a manoeuvre that has just begun stops |
| Navigation.TiesTurnRight | src/core/navigation.py:136-146 | equal side clearances turn right |
| Navigation.NavigationSystem.constructor | src/core/navigation.py:42-60 | stopped, no waypoints, no callback, avoidance start 0 |
| Navigation.NavigationSystem.HandleObstacleAvoidance | src/core/navigation.py:117-150 | entering avoidance records its start time; the mode and speed are the manoeuvre's move for the time elapsed |
| Navigation.NavigationSystem.NavigateToWaypoint | src/core/navigation.py:160-175 | past the last waypoint the robot stops and its speed is kept; otherwise it goes forward at full speed |
| Navigation.NavigationSystem.PatrolBehavior | src/core/navigation.py:177-180 | forward at 70% of full speed |
| Navigation.NavigationSystem.ExecuteNavigation | src/core/navigation.py:152-158 | waypoints when there are any, patrol otherwise |
| Navigation.NavigationSystem.UpdateMotors | src/core/navigation.py:182-201 | issues the current mode's command and changes no navigation state |
| Navigation.NavigationSystem.Update | src/core/navigation.py:65-102 | unreadable sensors give the 1 m defaults; a front obstacle restarts and runs the manoeuvre, otherwise navigation runs; exactly one motor command is sent |
| Navigation.NavigationSystem.StopMotorsNow | src/core/navigation.py:203-210 | stops the motors, then sets the mode to stop and the speed to zero |
| Navigation.NavigationSystem.SetWaypoints | src/core/navigation.py:221-230 | the waypoints are replaced and navigation restarts at the first one |
| Navigation.NavigationSystem.SetStateCallback | src/core/navigation.py:212-219 | records the callback and changes nothing else |
| Safety.ViolationIffCheckFails | src/core/safety.py:69-83 | each violation is reported exactly when its check fails |
| Safety.ViolationsOrdered | src/core/safety.py:69-83 | at most four violations, in the order tilt, battery, obstacle, hardware, with none repeated |
| Safety.UnreadableIsUnsafe | src/core/safety.py:98-171 | a tilt, battery, distance or motor-health reading that raises is a violation |
| Safety.ViolationNameInjective | src/core/safety.py:69-83 | the four violation strings are pairwise different |
| Safety.NameListed | src/core/safety.py:69-83 | a violation's string is in the reported list exactly when the violation is |
| Safety.ReportedNames | src/core/safety.py:62-83 | the strings `is_safe` collects: `excessive_tilt`, `low_battery`, `obstacle_detected`, `hardware_failure` each appear exactly when their check fails, at most four, none twice |
| Safety.SafetySystem.constructor | src/core/safety.py:29-43 | no stop and no violations; the last check is now and the interval is 100 ms |
| Safety.SafetySystem.CheckObstacleSafety | src/core/safety.py:126-148 | fails exactly when the distances cannot be read or some distance is below 10 cm |
| Safety.SafetySystem.IsSafe | src/core/safety.py:47-89 | within the interval the last verdict stands and nothing changes; otherwise the violations are rebuilt (none while the stop is latched) and the result is "no stop and no violations" |
| Safety.SafetySystem.SetEmergencyCallback | src/core/safety.py:173-180 | records the callback and changes nothing else |
| Safety.SafetySystem.TriggerEmergencyStop | src/core/safety.py:182-196 | latches the stop and invokes the callback once, if one is set |
| Safety.SafetySystem.ResetEmergencyStop | src/core/safety.py:198-203 | clears the stop, and clears the violations only when a stop was latched |

## Left out

- Threads, `time.sleep`, the scan thread's join timeout and the daemon flag are not modelled. One pass of the scanning loop is `ScanOnce`.
- The serial port is a sequence of read results. The one-second read timeout is modelled as running out of results, not as a clock.
- Floating point is modelled as exact reals. This affects the distance conversion, the angle interpolation, `% 360.0`, the velocity normalisation and the odometry.
- `float32` rounding of the occupancy grid is not modelled: cells are exact multiples of 0.05.
- `np.cos`, `np.sin` and `np.radians` are not modelled as trigonometry. The first two are function parameters; `np.radians` is a constant factor.
- `get_scan_as_cartesian`, `get_current_scan`, `get_map_image`, `get_status`, `get_navigation_status` and `get_safety_status` are not modelled. They only read state or format it for display.
- The unused `LidarScan.parse_ld19_data`/`_initialize_lidar` code, which refers to an `LdLidar` class that does not exist, is not modelled.
- Debug logging and the raw-packet log counter are not modelled.
- The scan callback and its wiring (`set_scan_callback`, and SLAM registering `_process_lidar_scan`) are left out. Callbacks are recorded by identity, and an exception raised inside a callback is not modelled.
- An exception raised by the I2C controller or by GPIO during a motor call is not modelled. Motor commands always succeed and are appended to a log.
- The generic exception branches are not modelled: the navigation `update` fallback to `_stop_motors` and the scan loop's error counter. `_stop_motors` itself is modelled as `StopMotorsNow`.
- The SLAM scan-processing handler is modelled for one exception only: the `ZeroDivisionError` that a zero `map_resolution` raises in `_update_ray`. Other exceptions inside it (a malformed scan, a numpy error) are not modelled.
- Where the source reads `time.time()` twice in one operation, the model passes one `now` for both reads. This covers `ScanOnce` (the scan's timestamp and `last_scan_time`) and the SLAM constructor (the pose timestamp and `last_map_update`). The microseconds between the two reads are not modelled.
- Motoron acceleration and deceleration limits, CRC-off and the command timeout are folded into one `Initialize` command.
- The `emergency_stop_enabled` setting is not modelled. It is read but never used.
- `get_motor_current`, `test_motors` and `shutdown` of both motor controllers, and `LidarManager.shutdown`, are not modelled. They are hardware conveniences outside the control logic.
- The pose's `confidence` and `timestamp` fields of the history entries are recorded but not reasoned about.
- `Lidar.LidarManager.GetObstaclesInDirection`: proved for every direction. The circular meaning of the angular difference is proved only for directions in [0, 360) (`AngleDifferenceIsCircular`). `AngleDifferenceOutsideRange` shows what the code does outside that range.
- `States.StateMachine.constructor`: requires a valid default state name. The source raises `ValueError` on an invalid one, and that construction failure is not modelled.
- `Motoron.MotorController.SetAllSpeeds`: the dictionary of speeds is a sequence of (motor, speed) pairs in iteration order. The model therefore also allows a motor to appear twice.
- `PwmMotors.WheelCommands`: the ratio between the wheels is stated in `Drive.NormaliseKeepsRatio`, not in this function's own contract.
