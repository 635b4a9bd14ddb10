/** The measurement records produced by the LiDAR layer: a point of a sweep and a
    complete scan, with the validity rule for distances shared by the real and the
    simulated sources. */
module Scans {

  /** One measurement: `angle` in degrees, `distance` in metres. */
  datatype LidarPoint = LidarPoint(angle: real, distance: real, intensity: int, valid: bool)

  /** A scan: its points in the order the sensor layer returns them. */
  datatype LidarScan = LidarScan(timestamp: real, points: seq<LidarPoint>, scanFrequency: real, totalPoints: int)

  /** A distance is usable when it lies strictly between 5 cm and 12 m. */
  predicate IsValidDistance(distance: real)
  {
    0.05 < distance < 12.0
  }

  /** Millimetres as delivered by the sensor, converted to metres. */
  function MmToMetres(mm: int): real
  {
    mm as real / 1000.0
  }

  /** On raw millimetres the validity rule is `50 < mm < 12000`, both ends excluded. */
  lemma ValidIffRawRange(mm: int)
    ensures IsValidDistance(MmToMetres(mm)) <==> 50 < mm < 12000
  {
  }
}
