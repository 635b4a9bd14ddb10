/** The mapper: an occupancy grid updated along LiDAR rays, the mapping on/off switch
    and dead-reckoning odometry (`SLAMSystem`).

    Cell values are kept as integers in units of 0.05: a fresh cell holds 10 (0.5), a
    hit adds 2 (0.1) up to 20 (1.0), a pass-through subtracts 1 (0.05) down to 0. */
module Slam {
  import opened Common
  import opened Scans
  import opened Bresenham
  import opened Lidar

  const Unknown := 10
  const Occupied := 20
  const PoseHistoryLength := 1000

  /** `min(1.0, v + 0.1)`: the cell at the end of a ray. */
  function Hit(v: int): (r: int)
    ensures 0 <= v <= Occupied ==> v <= r <= Occupied
    ensures v + 2 <= Occupied ==> r == v + 2
  {
    if v + 2 <= Occupied then v + 2 else Occupied
  }

  /** `max(0.0, v - 0.05)`: a cell the ray passes through. */
  function Free(v: int): (r: int)
    ensures 0 <= v <= Occupied ==> 0 <= r <= v
    ensures 1 <= v ==> r == v - 1
  {
    if 0 <= v - 1 then v - 1 else 0
  }

  function HitTimes(v: int, n: nat): int
  {
    if n == 0 then v else Hit(HitTimes(v, n - 1))
  }

  function FreeTimes(v: int, n: nat): int
  {
    if n == 0 then v else Free(FreeTimes(v, n - 1))
  }

  /** After `n` hits a cell in range holds `min(20, v + 2n)`: ten hits saturate any cell. */
  lemma {:induction false} HitsSaturate(v: int, n: nat)
    requires 0 <= v <= Occupied
    ensures HitTimes(v, n) == if v + 2 * n <= Occupied then v + 2 * n else Occupied
  {
    if n > 0 {
      HitsSaturate(v, n - 1);
    }
  }

  /** After `n` passes a cell in range holds `max(0, v - n)`: twenty passes clear any cell. */
  lemma {:induction false} FreesSaturate(v: int, n: nat)
    requires 0 <= v <= Occupied
    ensures FreeTimes(v, n) == if n <= v then v - n else 0
  {
    if n > 0 {
      FreesSaturate(v, n - 1);
    }
  }

  /** `int((w - origin) / resolution)`: truncation toward zero. */
  function ToGridIndex(w: real, origin: real, resolution: real): int
    requires resolution != 0.0
  {
    Truncate((w - origin) / resolution)
  }

  /** The world origin sits at `-(size * resolution) / 2`. */
  function Origin(size: nat, resolution: real): real
  {
    -(size as real * resolution) / 2.0
  }

  /** The robot's starting point, world (0, 0), lands in the middle cell `size / 2`. */
  lemma WorldZeroIsCentre(size: nat, resolution: real)
    requires resolution != 0.0
    ensures ToGridIndex(0.0, Origin(size, resolution), resolution) == size / 2
  {
    var q := (0.0 - Origin(size, resolution)) / resolution;
    assert q == size as real / 2.0;
    assert (size / 2) as real <= q < (size / 2) as real + 1.0;
  }

  /** The value a cell takes from one ray: a hit when it is the last cell of the ray, a
      pass when it is an earlier cell, unchanged otherwise. */
  function RayValue(v: int, line: seq<Cell>, c: Cell): int
  {
    if |line| > 0 && c == line[|line| - 1] then Hit(v)
    else if c in line then Free(v)
    else v
  }

  /** The value a cell takes from a sequence of rays applied in order. */
  function CellAfter(v: int, lines: seq<seq<Cell>>, c: Cell): int
  {
    if |lines| == 0 then v else RayValue(CellAfter(v, lines[..|lines| - 1], c), lines[|lines| - 1], c)
  }

  /** A ray keeps a cell in range; only its last cell can grow. */
  lemma RayValueBounds(v: int, line: seq<Cell>, c: Cell)
    requires 0 <= v <= Occupied
    ensures 0 <= RayValue(v, line, c) <= Occupied
    ensures (|line| == 0 || c != line[|line| - 1]) ==> RayValue(v, line, c) <= v
    ensures c !in line ==> RayValue(v, line, c) == v
  {
  }

  /** Starting in range, a cell stays in range whatever rays are cast. */
  lemma {:induction false} CellAfterInRange(v: int, lines: seq<seq<Cell>>, c: Cell)
    requires 0 <= v <= Occupied
    ensures 0 <= CellAfter(v, lines, c) <= Occupied
    decreases |lines|
  {
    if |lines| > 0 {
      CellAfterInRange(v, lines[..|lines| - 1], c);
      RayValueBounds(CellAfter(v, lines[..|lines| - 1], c), lines[|lines| - 1], c);
    }
  }

  /** A cell no ray touches keeps its value. */
  lemma {:induction false} CellAfterUntouched(v: int, lines: seq<seq<Cell>>, c: Cell)
    requires forall k :: 0 <= k < |lines| ==> c !in lines[k]
    ensures CellAfter(v, lines, c) == v
    decreases |lines|
  {
    if |lines| > 0 {
      CellAfterUntouched(v, lines[..|lines| - 1], c);
    }
  }

  lemma CellAfterSnoc(v: int, lines: seq<seq<Cell>>, line: seq<Cell>, c: Cell)
    ensures CellAfter(v, lines + [line], c) == RayValue(CellAfter(v, lines, c), line, c)
  {
    assert (lines + [line])[..|lines|] == lines;
  }

  /** The robot pose: position in metres, heading in radians. */
  datatype Pose = Pose(x: real, y: real, theta: real, timestamp: real, confidence: real)

  /** `np.radians`. */
  const Pi := 3.141592653589793

  function Radians(degrees: real): real
  {
    degrees * Pi / 180.0
  }

  /** A point casts a ray only when it is valid and not beyond the range limit. */
  predicate CastsRay(p: LidarPoint, maxRange: real)
  {
    p.valid && !(p.distance > maxRange)
  }

  /** No point of the scan is usable, so the scan casts no ray. */
  predicate CastsNoRay(points: seq<LidarPoint>, maxRange: real)
  {
    forall k :: 0 <= k < |points| ==> !CastsRay(points[k], maxRange)
  }

  /** The value a cell holds once the first `i` cells of a ray have been applied. */
  ghost function PrefixValue(v: int, points: seq<Cell>, i: nat, c: Cell): int
    requires i <= |points|
  {
    if c in points[..i] then RayValue(v, points, c) else v
  }

  lemma PrefixValueStep(v: int, points: seq<Cell>, i: nat, c: Cell)
    requires i < |points| && Distinct(points)
    ensures c == points[i] ==> PrefixValue(v, points, i, c) == v
    ensures PrefixValue(v, points, i + 1, c) ==
      if c != points[i] then PrefixValue(v, points, i, c)
      else if i == |points| - 1 then Hit(v) else Free(v)
  {
    assert points[..i + 1] == points[..i] + [points[i]];
    if c == points[i] {
      assert c !in points[..i];
    }
  }

  lemma PrefixValueWhole(v: int, points: seq<Cell>, c: Cell)
    ensures PrefixValue(v, points, |points|, c) == RayValue(v, points, c)
  {
    assert points[..|points|] == points;
  }

  lemma PointPrefix(points: seq<LidarPoint>, i: nat)
    requires i < |points|
    ensures points[..i + 1][..i] == points[..i] && points[..i + 1][i] == points[i]
  {
  }

  /** Where a measured point lies in the world: the beam leaves the robot at the point's
      angle plus the robot heading and travels the measured distance. */
  function PointInWorld(p: LidarPoint, robot: Pose, cos: real -> real, sin: real -> real): (real, real)
  {
    var angle := Radians(p.angle) + robot.theta;
    (robot.x + p.distance * cos(angle), robot.y + p.distance * sin(angle))
  }

  /** One odometry step of `dt` seconds: the heading turns by `angular * dt` first, then
      the robot moves `linear * dt` along the new heading; the confidence is kept. */
  function Integrate(p: Pose, linearVel: real, angularVel: real, dt: real, now: real,
                     cos: real -> real, sin: real -> real): Pose
  {
    var theta := p.theta + angularVel * dt;
    Pose(p.x + linearVel * cos(theta) * dt, p.y + linearVel * sin(theta) * dt, theta, now, p.confidence)
  }

  class SlamSystem {
    const width: nat
    const height: nat
    const resolution: real
    const maxRange: real
    const originX: real
    const originY: real
    const grid: array2<int>
    const lidar: LidarManager
    var pose: Pose
    var poseHistory: seq<Pose>
    var isMapping: bool
    var totalScansProcessed: nat
    var lastMapUpdate: real
    var lastOdomTime: Option<real>

    /** The grid has the configured shape, `[gy, gx]`, every cell is in range and the
        pose history is bounded. */
    ghost predicate Valid()
      reads this, grid
    {
      grid.Length0 == height && grid.Length1 == width &&
      |poseHistory| <= PoseHistoryLength &&
      forall gy, gx :: 0 <= gy < height && 0 <= gx < width ==> 0 <= grid[gy, gx] <= Occupied
    }

    /** A fresh map: every cell unknown, robot at the origin facing along x, not mapping. */
    constructor (width: nat, height: nat, resolution: real, maxRange: real, lidar: LidarManager, now: real)
      ensures Valid() && fresh(grid)
      ensures this.width == width && this.height == height
      ensures this.resolution == resolution && this.maxRange == maxRange && this.lidar == lidar
      ensures originX == Origin(width, resolution) && originY == Origin(height, resolution)
      ensures forall gy, gx :: 0 <= gy < height && 0 <= gx < width ==> grid[gy, gx] == Unknown
      ensures pose == Pose(0.0, 0.0, 0.0, now, 1.0) && poseHistory == []
      ensures !isMapping && totalScansProcessed == 0 && lastMapUpdate == now && lastOdomTime == None
    {
      this.width := width;
      this.height := height;
      this.resolution := resolution;
      this.maxRange := maxRange;
      this.lidar := lidar;
      grid := new int[height, width]((gy, gx) => Unknown);
      originX := Origin(width, resolution);
      originY := Origin(height, resolution);
      pose := Pose(0.0, 0.0, 0.0, now, 1.0);
      poseHistory := [];
      isMapping := false;
      totalScansProcessed := 0;
      lastMapUpdate := now;
      lastOdomTime := None;
    }

    /** Starting is idempotent; the LiDAR is started only when it is not already scanning. */
    method StartMapping()
      modifies this, lidar
      ensures isMapping
      ensures old(isMapping) ==> unchanged(lidar)
      ensures !old(isMapping) && old(lidar.isScanning) ==> unchanged(lidar)
      ensures !old(isMapping) && !old(lidar.isScanning) ==>
        lidar.isScanning && lidar.currentScan == old(lidar.currentScan) &&
        lidar.scanHistory == old(lidar.scanHistory) && lidar.totalScans == old(lidar.totalScans) &&
        lidar.simulate == old(lidar.simulate) && lidar.serialOpen == old(lidar.serialOpen) &&
        lidar.lastScanTime == old(lidar.lastScanTime) && lidar.scanFrequency == old(lidar.scanFrequency)
      ensures pose == old(pose) && poseHistory == old(poseHistory) && lastOdomTime == old(lastOdomTime)
      ensures totalScansProcessed == old(totalScansProcessed) && lastMapUpdate == old(lastMapUpdate)
    {
      if isMapping {
        return;
      }
      isMapping := true;
      if !lidar.isScanning {
        var _ := lidar.StartScanning();
      }
    }

    /** Stopping is idempotent and leaves the LiDAR running. */
    method StopMapping()
      modifies this
      ensures !isMapping
      ensures pose == old(pose) && poseHistory == old(poseHistory) && lastOdomTime == old(lastOdomTime)
      ensures totalScansProcessed == old(totalScansProcessed) && lastMapUpdate == old(lastMapUpdate)
    {
      if !isMapping {
        return;
      }
      isMapping := false;
    }

    /** The grid cells of the ray between two world points. */
    function RayLine(startX: real, startY: real, endX: real, endY: real): seq<Cell>
      requires resolution != 0.0
    {
      Line(ToGridIndex(startX, originX, resolution), ToGridIndex(startY, originY, resolution),
           ToGridIndex(endX, originX, resolution), ToGridIndex(endY, originY, resolution))
    }

    /** `_update_ray`: the line's last cell is hit and its earlier cells are passed
        through, each only when it lies inside the grid. With a zero resolution the
        grid-index division raises before any cell is written (`ok` is false). */
    method UpdateRay(startX: real, startY: real, endX: real, endY: real) returns (ok: bool)
      requires Valid()
      modifies grid
      ensures Valid()
      ensures ok == (resolution != 0.0)
      ensures !ok ==> unchanged(grid)
      ensures ok ==> forall gy, gx :: 0 <= gy < height && 0 <= gx < width ==>
        grid[gy, gx] == RayValue(old(grid[gy, gx]), RayLine(startX, startY, endX, endY), Cell(gx, gy))
    {
      if resolution == 0.0 {
        return false;
      }
      var startGx := ToGridIndex(startX, originX, resolution);
      var startGy := ToGridIndex(startY, originY, resolution);
      var endGx := ToGridIndex(endX, originX, resolution);
      var endGy := ToGridIndex(endY, originY, resolution);
      var points := BresenhamLine(startGx, startGy, endGx, endGy);
      LineSteps(startGx, startGy, endGx, endGy);
      MarkRay(points);
      ok := true;
    }

    /** Writes one ray into the grid: its last cell is hit, the others passed, cells outside the grid skipped. */
    method MarkRay(points: seq<Cell>)
      requires Valid() && Distinct(points)
      modifies grid
      ensures Valid()
      ensures forall gy, gx :: 0 <= gy < height && 0 <= gx < width ==>
        grid[gy, gx] == RayValue(old(grid[gy, gx]), points, Cell(gx, gy))
    {
      var i := 0;
      while i < |points|
        invariant 0 <= i <= |points|
        invariant forall gy, gx :: 0 <= gy < height && 0 <= gx < width ==>
          grid[gy, gx] == PrefixValue(old(grid[gy, gx]), points, i, Cell(gx, gy))
      {
        var gx, gy := points[i].x, points[i].y;
        if 0 <= gx < width && 0 <= gy < height {
          PrefixValueStep(old(grid[gy, gx]), points, i, points[i]);
          if i == |points| - 1 {
            grid[gy, gx] := Hit(grid[gy, gx]);
          } else {
            grid[gy, gx] := Free(grid[gy, gx]);
          }
        }
        forall y, x | 0 <= y < height && 0 <= x < width
          ensures grid[y, x] == PrefixValue(old(grid[y, x]), points, i + 1, Cell(x, y))
        {
          PrefixValueStep(old(grid[y, x]), points, i, Cell(x, y));
        }
        i := i + 1;
      }
      forall gy, gx | 0 <= gy < height && 0 <= gx < width
        ensures grid[gy, gx] == RayValue(old(grid[gy, gx]), points, Cell(gx, gy))
        ensures 0 <= grid[gy, gx] <= Occupied
      {
        PrefixValueWhole(old(grid[gy, gx]), points, Cell(gx, gy));
        RayValueBounds(old(grid[gy, gx]), points, Cell(gx, gy));
      }
    }

    /** The ray a usable point casts from the robot pose. */
    function RayOf(p: LidarPoint, robot: Pose, cos: real -> real, sin: real -> real): seq<Cell>
      requires resolution != 0.0
    {
      var (endX, endY) := PointInWorld(p, robot, cos, sin);
      RayLine(robot.x, robot.y, endX, endY)
    }

    /** The rays the usable points of a scan cast from the robot pose, in scan order. */
    function RayLines(points: seq<LidarPoint>, robot: Pose, cos: real -> real, sin: real -> real): seq<seq<Cell>>
      requires resolution != 0.0
    {
      if |points| == 0 then []
      else
        var init := RayLines(points[..|points| - 1], robot, cos, sin);
        if CastsRay(points[|points| - 1], maxRange) then init + [RayOf(points[|points| - 1], robot, cos, sin)]
        else init
    }

    lemma RayLinesSnoc(points: seq<LidarPoint>, i: nat, robot: Pose, cos: real -> real, sin: real -> real)
      requires resolution != 0.0 && i < |points|
      ensures RayLines(points[..i + 1], robot, cos, sin) ==
        if CastsRay(points[i], maxRange) then RayLines(points[..i], robot, cos, sin) + [RayOf(points[i], robot, cos, sin)]
        else RayLines(points[..i], robot, cos, sin)
    {
      PointPrefix(points, i);
    }

    /** A scan without a usable point casts no ray, so it leaves the whole grid as it was. */
    lemma {:induction false} UnusableScanCastsNoRay(points: seq<LidarPoint>, robot: Pose, cos: real -> real, sin: real -> real)
      requires resolution != 0.0
      requires forall k :: 0 <= k < |points| ==> !CastsRay(points[k], maxRange)
      ensures RayLines(points, robot, cos, sin) == []
      ensures forall v, c :: CellAfter(v, RayLines(points, robot, cos, sin), c) == v
    {
      if |points| > 0 {
        UnusableScanCastsNoRay(points[..|points| - 1], robot, cos, sin);
      }
    }

    /** `_update_occupancy_grid`: one ray per usable point, from the current pose. With a
        zero resolution the first usable point raises (`ok` is false) before any cell is
        written. */
    method UpdateOccupancyGrid(scan: LidarScan, cos: real -> real, sin: real -> real) returns (ok: bool)
      requires Valid()
      modifies grid
      ensures Valid()
      ensures resolution != 0.0 ==> ok && forall gy, gx :: 0 <= gy < height && 0 <= gx < width ==>
        grid[gy, gx] == CellAfter(old(grid[gy, gx]), RayLines(scan.points, pose, cos, sin), Cell(gx, gy))
      ensures resolution == 0.0 ==> unchanged(grid) && (ok <==> CastsNoRay(scan.points, maxRange))
    {
      var robotX, robotY := pose.x, pose.y;
      var i := 0;
      while i < |scan.points|
        invariant 0 <= i <= |scan.points| && Valid()
        invariant resolution != 0.0 ==> forall gy, gx :: 0 <= gy < height && 0 <= gx < width ==>
          grid[gy, gx] == CellAfter(old(grid[gy, gx]), RayLines(scan.points[..i], pose, cos, sin), Cell(gx, gy))
        invariant resolution == 0.0 ==> unchanged(grid) && forall k :: 0 <= k < i ==> !CastsRay(scan.points[k], maxRange)
      {
        var point := scan.points[i];
        if point.valid && !(point.distance > maxRange) {
          var (pointX, pointY) := PointInWorld(point, pose, cos, sin);
          label pre:
          var rayOk := UpdateRay(robotX, robotY, pointX, pointY);
          if !rayOk {
            return false;
          }
          RayLinesSnoc(scan.points, i, pose, cos, sin);
          ghost var before := RayLines(scan.points[..i], pose, cos, sin);
          ghost var line := RayOf(point, pose, cos, sin);
          forall gy, gx | 0 <= gy < height && 0 <= gx < width
            ensures grid[gy, gx] == CellAfter(old(grid[gy, gx]), before + [line], Cell(gx, gy))
          {
            assert old@pre(grid[gy, gx]) == CellAfter(old(grid[gy, gx]), before, Cell(gx, gy));
            CellAfterSnoc(old(grid[gy, gx]), before, line, Cell(gx, gy));
          }
        } else if resolution != 0.0 {
          RayLinesSnoc(scan.points, i, pose, cos, sin);
        }
        i := i + 1;
      }
      assert scan.points[..i] == scan.points;
      return true;
    }

    /** `_process_lidar_scan`: ignored unless mapping; otherwise the grid takes the scan's
        rays and the scan is counted. */
    method ProcessLidarScan(scan: LidarScan, now: real, cos: real -> real, sin: real -> real)
      requires Valid()
      modifies this, grid
      ensures Valid()
      ensures !old(isMapping) ==> unchanged(this) && unchanged(grid)
      ensures old(isMapping) && resolution != 0.0 ==>
        totalScansProcessed == old(totalScansProcessed) + 1 && lastMapUpdate == now &&
        forall gy, gx :: 0 <= gy < height && 0 <= gx < width ==>
          grid[gy, gx] == CellAfter(old(grid[gy, gx]), RayLines(scan.points, old(pose), cos, sin), Cell(gx, gy))
      ensures old(isMapping) && resolution == 0.0 ==>
        unchanged(grid) &&
        (if CastsNoRay(scan.points, maxRange) then
           totalScansProcessed == old(totalScansProcessed) + 1 && lastMapUpdate == now
         else
           totalScansProcessed == old(totalScansProcessed) && lastMapUpdate == old(lastMapUpdate))
      ensures isMapping == old(isMapping) && pose == old(pose) && poseHistory == old(poseHistory)
      ensures lastOdomTime == old(lastOdomTime)
    {
      if !isMapping {
        return;
      }
      var ok := UpdateOccupancyGrid(scan, cos, sin);
      if !ok {
        return;
      }
      totalScansProcessed := totalScansProcessed + 1;
      lastMapUpdate := now;
    }

    /** `update_odometry`: the first call only records the time; later calls with a
        positive interval integrate the velocities and record one pose. */
    method UpdateOdometry(linearVel: real, angularVel: real, now: real, cos: real -> real, sin: real -> real)
      requires Valid()
      modifies this
      ensures Valid()
      ensures lastOdomTime == Some(now)
      ensures (old(lastOdomTime).None? || now - old(lastOdomTime).value <= 0.0) ==>
        pose == old(pose) && poseHistory == old(poseHistory)
      ensures old(lastOdomTime).Some? && now - old(lastOdomTime).value > 0.0 ==>
        pose == Integrate(old(pose), linearVel, angularVel, now - old(lastOdomTime).value, now, cos, sin) &&
        poseHistory == BoundedAppend(old(poseHistory), Pose(pose.x, pose.y, pose.theta, now, 1.0), PoseHistoryLength)
      ensures isMapping == old(isMapping) && totalScansProcessed == old(totalScansProcessed)
      ensures lastMapUpdate == old(lastMapUpdate)
    {
      if lastOdomTime.Some? {
        var dt := now - lastOdomTime.value;
        if dt > 0.0 {
          pose := Integrate(pose, linearVel, angularVel, dt, now, cos, sin);
          poseHistory := BoundedAppend(poseHistory, Pose(pose.x, pose.y, pose.theta, now, 1.0), PoseHistoryLength);
        }
      }
      lastOdomTime := Some(now);
    }
  }
}
