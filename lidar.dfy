/** The LiDAR manager: scanning on/off, reading one LD-19 sweep from the serial
    port, the simulated sweep, publishing a scan into the bounded history, and the
    obstacle query over a cone of directions. */
module Lidar {
  import opened Common
  import opened Sorting
  import opened Scans
  import opened Ld19

  /** The history keeps the 100 most recent scans. */
  const ScanHistoryLength: nat := 100

  /** Number of readings of the simulated sensor: one per degree. */
  const SimulatedPoints: nat := 360

  // ---------------------------------------------------------------------------
  // Reading a sweep

  /** The read loop: one header read per iteration, then the body read; the loop
      ends when the sweep wraps, on a read error, or when the reads run out. */
  method CollectSweep(results: seq<ReadResult>) returns (points: seq<LidarPoint>)
    ensures points == Collect(results, Fresh).points
  {
    points := [];
    var lastEnd: Option<real> := None;
    var complete := false;
    var i := 0;
    while !complete && i < |results|
      invariant 0 <= i <= |results|
      invariant Collect(results[i..], Assembly(points, lastEnd, complete)) == Collect(results, Fresh)
      decreases |results| - i, !complete
    {
      assert results[i..][0] == results[i];
      if results[i].ReadError? {
        break;
      }
      var header := Take(results[i].data, 2);
      if |header| < 2 || header[0] != HeaderByte || header[1] != VerLenByte {
        assert results[i..][1..] == results[i + 1..];
        i := i + 1;
        continue;
      }
      if i + 1 == |results| || results[i + 1].ReadError? {
        assert |results[i..]| == 1 || results[i..][1] == results[i + 1];
        break;
      }
      var bytes := header + Take(results[i + 1].data, 45);
      assert results[i..][1] == results[i + 1];
      assert results[i..][2..] == results[i + 2..];
      if !PacketAccepted(bytes) {
        i := i + 2;
        continue;
      }
      var packet := DecodePacket(bytes);
      var startAngle := StartAngle(packet);
      if lastEnd.Some? {
        if startAngle < lastEnd.value && lastEnd.value - startAngle > 180.0 {
          complete := true;
        }
      }
      lastEnd := Some(EndAngle(packet));
      points := points + PacketPoints(packet);
      i := i + 2;
    }
  }

  /** The de-duplication loop: the first point of every whole-degree bucket is kept. */
  method KeepFirstPerDegree(sorted: seq<LidarPoint>) returns (unique: seq<LidarPoint>)
    ensures unique == FirstPerBucket(sorted)
  {
    var seen: set<int> := {};
    unique := [];
    var j := 0;
    while j < |sorted|
      invariant 0 <= j <= |sorted|
      invariant unique == FirstPerBucket(sorted[..j])
      invariant seen == BucketSet(unique)
    {
      assert sorted[..j + 1][..j] == sorted[..j];
      var a := RoundHalfEven(sorted[j].angle);
      if a !in seen {
        BucketSetSnoc(unique, sorted[j]);
        unique := unique + [sorted[j]];
        seen := seen + {a};
      }
      j := j + 1;
    }
    assert sorted[..j] == sorted;
  }

  // ---------------------------------------------------------------------------
  // The simulated sensor

  /** The simulated reading at degree `i`, in millimetres. */
  function SimulatedReading(i: int): real
  {
    if 170 <= i <= 190 then 1000.0 else if i == 90 then 2000.0 else if i == 270 then 1500.0 else 4000.0
  }

  /** The point the simulated sensor reports at degree `i`. */
  function SimulatedPoint(i: int): LidarPoint
  {
    LidarPoint(i as real, SimulatedReading(i) / 1000.0, 0, IsValidDistance(SimulatedReading(i) / 1000.0))
  }

  /** The scan one simulated pass of the scanning loop publishes. */
  function SimulatedScan(now: real, scanFrequency: real): LidarScan
  {
    LidarScan(now, seq(SimulatedPoints, i => SimulatedPoint(i)), scanFrequency, SimulatedPoints)
  }

  /** The scan a read of the serial port publishes: the finished sweep, its size and time. */
  function SweepScan(results: seq<ReadResult>, now: real, scanFrequency: real): LidarScan
  {
    var points := FinishPoints(Collect(results, Fresh).points);
    LidarScan(now, points, scanFrequency, |points|)
  }

  /** The fixed simulated sweep in millimetres: 4 m all round, 1 m from 170 to 190
      degrees, 2 m at 90 degrees and 1.5 m at 270 degrees. */
  method SimulatedSweep() returns (data: seq<real>)
    ensures |data| == SimulatedPoints
    ensures forall i :: 0 <= i < SimulatedPoints ==>
      data[i] == if 170 <= i <= 190 then 1000.0 else if i == 90 then 2000.0 else if i == 270 then 1500.0 else 4000.0
  {
    data := seq(SimulatedPoints, i => 4000.0);
    for i := 170 to 191
      invariant |data| == SimulatedPoints
      invariant forall j :: 0 <= j < SimulatedPoints ==> data[j] == if 170 <= j < i then 1000.0 else 4000.0
    {
      data := data[i % SimulatedPoints := 1000.0];
    }
    data := data[90 := 2000.0];
    data := data[270 := 1500.0];
  }

  /** A scan from simulated readings: point `i` at `i` degrees, the reading in metres, intensity 0. */
  method ProcessSimulatedScan(data: seq<real>, now: real, scanFrequency: real) returns (scan: LidarScan)
    ensures scan.timestamp == now && scan.scanFrequency == scanFrequency
    ensures |scan.points| == |data| && scan.totalPoints == |data|
    ensures forall i :: 0 <= i < |data| ==>
      scan.points[i] == LidarPoint(i as real, data[i] / 1000.0, 0, IsValidDistance(data[i] / 1000.0))
  {
    var points: seq<LidarPoint> := [];
    for angle := 0 to |data|
      invariant |points| == angle
      invariant forall i :: 0 <= i < angle ==>
        points[i] == LidarPoint(i as real, data[i] / 1000.0, 0, IsValidDistance(data[i] / 1000.0))
    {
      var distance := data[angle] / 1000.0;
      var valid := 0.05 < distance < 12.0;
      points := points + [LidarPoint(angle as real, distance, 0, valid)];
    }
    scan := LidarScan(now, points, scanFrequency, |points|);
  }

  // ---------------------------------------------------------------------------
  // The obstacle cone

  /** The angular difference as written: `|a - d|`, folded to `360 - |a - d|` above 180. */
  function AngleDifference(angle: real, direction: real): real
  {
    var diff := AbsReal(angle - direction);
    if diff > 180.0 then 360.0 - diff else diff
  }

  /** For angles in `[0, 360)` the difference is the shorter way round the circle. */
  lemma AngleDifferenceIsCircular(angle: real, direction: real)
    requires 0.0 <= angle < 360.0 && 0.0 <= direction < 360.0
    ensures 0.0 <= AngleDifference(angle, direction) <= 180.0
    ensures AngleDifference(angle, direction) == AbsReal(angle - direction) ||
            AngleDifference(angle, direction) == 360.0 - AbsReal(angle - direction)
    ensures AngleDifference(angle, direction) <= AbsReal(angle - direction) &&
            AngleDifference(angle, direction) <= 360.0 - AbsReal(angle - direction)
  {
  }

  /** With a direction outside `[0, 360)` the folded difference can go negative:
      a point at 350 degrees is 20 degrees away from -30 but falls in its 30-degree cone. */
  lemma AngleDifferenceOutsideRange()
    ensures AngleDifference(350.0, -30.0) == -20.0
    ensures AngleDifference(350.0, -30.0) <= 30.0 / 2.0
  {
  }

  /** The distances of the valid points within `halfCone` of `direction`, in scan order. */
  function ConeDistances(points: seq<LidarPoint>, direction: real, halfCone: real): seq<real>
  {
    if |points| == 0 then []
    else
      var p := points[|points| - 1];
      var init := ConeDistances(points[..|points| - 1], direction, halfCone);
      if p.valid && AngleDifference(p.angle, direction) <= halfCone then init + [p.distance] else init
  }

  lemma ConeDistancesSnoc(points: seq<LidarPoint>, i: nat, direction: real, halfCone: real)
    requires i < |points|
    ensures ConeDistances(points[..i + 1], direction, halfCone) ==
      ConeDistances(points[..i], direction, halfCone) +
      (if points[i].valid && AngleDifference(points[i].angle, direction) <= halfCone then [points[i].distance] else [])
  {
    assert points[..i + 1][..i] == points[..i];
  }

  /** The loop of `get_obstacles_in_direction`: the distances of the valid points whose
      angular difference to `direction` is at most `halfCone`, in scan order. */
  method ConeObstacles(points: seq<LidarPoint>, direction: real, halfCone: real) returns (obstacles: seq<real>)
    ensures obstacles == ConeDistances(points, direction, halfCone)
  {
    obstacles := [];
    for i := 0 to |points|
      invariant obstacles == ConeDistances(points[..i], direction, halfCone)
    {
      ConeDistancesSnoc(points, i, direction, halfCone);
      var p := points[i];
      if p.valid {
        var diff := AbsReal(p.angle - direction);
        if diff > 180.0 {
          diff := 360.0 - diff;
        }
        if diff <= halfCone {
          obstacles := obstacles + [p.distance];
        }
      }
    }
    assert points[..|points|] == points;
  }

  /** The cone's distances, nearest first. */
  method SortedConeObstacles(points: seq<LidarPoint>, direction: real, halfCone: real) returns (distances: seq<real>)
    ensures SortedBy(distances, Identity)
    ensures multiset(distances) == multiset(ConeDistances(points, direction, halfCone))
  {
    var obstacles := ConeObstacles(points, direction, halfCone);
    distances := SortBy(obstacles, Identity);
    SortBySorted(obstacles, Identity);
    SortByPermutes(obstacles, Identity);
  }

  /** A distance is reported exactly when some valid point at that distance lies in the cone. */
  lemma {:induction false} ConeDistancesMembers(points: seq<LidarPoint>, direction: real, halfCone: real, d: real)
    ensures d in ConeDistances(points, direction, halfCone) <==>
      exists i :: 0 <= i < |points| && points[i].valid &&
        AngleDifference(points[i].angle, direction) <= halfCone && points[i].distance == d
    decreases |points|
  {
    if |points| > 0 {
      var init := points[..|points| - 1];
      ConeDistancesMembers(init, direction, halfCone, d);
      if exists i :: 0 <= i < |points| && points[i].valid &&
          AngleDifference(points[i].angle, direction) <= halfCone && points[i].distance == d {
        var i :| 0 <= i < |points| && points[i].valid &&
          AngleDifference(points[i].angle, direction) <= halfCone && points[i].distance == d;
        if i < |init| {
          assert init[i] == points[i];
        }
      }
      if exists i :: 0 <= i < |init| && init[i].valid &&
          AngleDifference(init[i].angle, direction) <= halfCone && init[i].distance == d {
        var i :| 0 <= i < |init| && init[i].valid &&
          AngleDifference(init[i].angle, direction) <= halfCone && init[i].distance == d;
        assert points[i] == init[i];
      }
    }
  }

  function Identity(x: real): real
  {
    x
  }

  // ---------------------------------------------------------------------------
  // The manager

  class LidarManager {
    var isScanning: bool
    var simulate: bool
    var serialOpen: bool
    var scanFrequency: real
    var currentScan: Option<LidarScan>
    var scanHistory: seq<LidarScan>
    var totalScans: nat
    var lastScanTime: real

    ghost predicate Valid()
      reads this
    {
      |scanHistory| <= ScanHistoryLength
    }

    /** Simulation is used when asked for, when the sensor is disabled, or when the
        serial port cannot be opened; otherwise the port is open. */
    constructor (simulateRequested: bool, enabled: bool, portOpens: bool, scanFrequency: real)
      ensures Valid()
      ensures simulate == (simulateRequested || !enabled || !portOpens)
      ensures serialOpen == !simulate
      ensures !isScanning && currentScan.None? && scanHistory == [] && totalScans == 0 && lastScanTime == 0.0
      ensures this.scanFrequency == scanFrequency
    {
      isScanning := false;
      currentScan := None;
      scanHistory := [];
      totalScans := 0;
      lastScanTime := 0.0;
      this.scanFrequency := scanFrequency;
      var sim := simulateRequested || !enabled;
      var open := false;
      if !sim {
        if portOpens {
          open := true;
        } else {
          sim := true;
        }
      }
      simulate := sim;
      serialOpen := open;
    }

    /** Starting is refused (false) when already scanning. */
    method StartScanning() returns (started: bool)
      modifies this
      ensures started == !old(isScanning)
      ensures isScanning
      ensures simulate == old(simulate) && serialOpen == old(serialOpen) && currentScan == old(currentScan)
      ensures scanHistory == old(scanHistory) && totalScans == old(totalScans) && lastScanTime == old(lastScanTime)
      ensures scanFrequency == old(scanFrequency)
    {
      if isScanning {
        return false;
      }
      isScanning := true;
      started := true;
    }

    /** Stopping clears the flag and closes the serial port. */
    method StopScanning()
      modifies this
      ensures !isScanning && !serialOpen
      ensures simulate == old(simulate) && currentScan == old(currentScan)
      ensures scanHistory == old(scanHistory) && totalScans == old(totalScans) && lastScanTime == old(lastScanTime)
      ensures scanFrequency == old(scanFrequency)
    {
      isScanning := false;
      serialOpen := false;
    }

    /** One sweep from the serial port: nothing when the port is not open; otherwise the
        collected points, stably sorted by angle and reduced to one per degree. A scan is
        returned even when the reads end before the sweep completes. */
    method ReadLd19Scan(results: seq<ReadResult>, now: real) returns (scan: Option<LidarScan>)
      ensures !serialOpen ==> scan.None?
      ensures serialOpen ==>
        (scan.Some? &&
         scan.value.points == FinishPoints(Collect(results, Fresh).points) &&
         scan.value.totalPoints == |scan.value.points| &&
         scan.value.timestamp == now && scan.value.scanFrequency == scanFrequency)
    {
      if !serialOpen {
        return None;
      }
      var points := CollectSweep(results);
      var sorted := SortBy(points, Angle);
      var unique := KeepFirstPerDegree(sorted);
      scan := Some(LidarScan(now, unique, scanFrequency, |unique|));
    }

    /** Publishing a scan: it becomes current, joins the bounded history (oldest dropped
        first) and is counted. */
    method PublishScan(scan: LidarScan, now: real)
      requires Valid()
      modifies this
      ensures Valid()
      ensures currentScan == Some(scan)
      ensures scanHistory == BoundedAppend(old(scanHistory), scan, ScanHistoryLength)
      ensures totalScans == old(totalScans) + 1 && lastScanTime == now
      ensures isScanning == old(isScanning) && simulate == old(simulate) && serialOpen == old(serialOpen)
      ensures scanFrequency == old(scanFrequency)
    {
      var history := BoundedAppend(scanHistory, scan, ScanHistoryLength);
      currentScan := Some(scan);
      scanHistory := history;
      totalScans := totalScans + 1;
      lastScanTime := now;
    }

    /** One pass of the scanning loop: the simulated scan, or the sweep read from an open
        port, is published; with neither nothing changes. */
    method ScanOnce(results: seq<ReadResult>, now: real)
      requires Valid()
      modifies this
      ensures Valid()
      ensures simulate ==>
        var s := SimulatedScan(now, scanFrequency);
        currentScan == Some(s) && scanHistory == BoundedAppend(old(scanHistory), s, ScanHistoryLength) &&
        totalScans == old(totalScans) + 1 && lastScanTime == now
      ensures !simulate && !serialOpen ==> unchanged(this)
      ensures !simulate && serialOpen ==>
        var s := SweepScan(results, now, scanFrequency);
        currentScan == Some(s) && scanHistory == BoundedAppend(old(scanHistory), s, ScanHistoryLength) &&
        totalScans == old(totalScans) + 1 && lastScanTime == now
      ensures isScanning == old(isScanning) && simulate == old(simulate) && serialOpen == old(serialOpen)
      ensures scanFrequency == old(scanFrequency)
    {
      var processed: Option<LidarScan>;
      if simulate {
        var data := SimulatedSweep();
        var s := ProcessSimulatedScan(data, now, scanFrequency);
        assert s.points == SimulatedScan(now, scanFrequency).points;
        processed := Some(s);
      } else {
        processed := ReadLd19Scan(results, now);
      }
      if processed.Some? {
        PublishScan(processed.value, now);
      }
    }

    /** Distances of valid points within half the cone of `direction`, closest first;
        none without a current scan. */
    method GetObstaclesInDirection(direction: real, coneAngle: real) returns (distances: seq<real>)
      ensures currentScan.None? ==> distances == []
      ensures currentScan.Some? ==>
        SortedBy(distances, Identity) &&
        multiset(distances) == multiset(ConeDistances(currentScan.value.points, direction, coneAngle / 2.0))
    {
      if currentScan.None? {
        return [];
      }
      distances := SortedConeObstacles(currentScan.value.points, direction, coneAngle / 2.0);
    }
  }
}
