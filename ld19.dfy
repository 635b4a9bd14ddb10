/** The LD-19 serial protocol as the scan reader consumes it: 47-byte packets
    (header 0x54 0x2C, rotation speed, start angle, twelve distance/intensity
    records, end angle, timestamp, CRC-8), the interpolation of twelve angles per
    packet, the detection of a completed sweep, and the final ordering and
    one-point-per-degree de-duplication. */
module Ld19 {
  import opened Common
  import opened Ld19Crc
  import opened Sorting
  import opened Scans

  const PacketLength: nat := 47
  const HeaderByte: Byte := 0x54
  const VerLenByte: Byte := 0x2C
  const PointsPerPacket: nat := 12

  // ---------------------------------------------------------------------------
  // Little-endian fields

  /** A 16-bit field sent low byte first (`int.from_bytes(..., 'little')`). */
  function Le16(lo: Byte, hi: Byte): (r: nat)
    ensures r < 65536
  {
    lo + 256 * hi
  }

  function Le16Bytes(v: nat): (r: seq<Byte>)
    requires v < 65536
    ensures |r| == 2 && Le16(r[0], r[1]) == v
  {
    [v % 256, v / 256]
  }

  /** Reading two bytes as a field and writing the field back gives the same bytes. */
  lemma Le16BytesOfLe16(lo: Byte, hi: Byte)
    ensures Le16Bytes(Le16(lo, hi)) == [lo, hi]
  {
    var v := Le16(lo, hi);
    assert v % 256 == lo && v / 256 == hi;
  }

  // ---------------------------------------------------------------------------
  // Packets

  /** The bytes as the checksum routine sees them. */
  function Bits(s: seq<Byte>): (r: seq<bv8>)
    ensures |r| == |s|
  {
    seq(|s|, i requires 0 <= i < |s| => s[i] as bv8)
  }

  /** One of the twelve records: a raw distance in millimetres and a one-byte intensity. */
  datatype Sample = Sample(distanceMm: nat, intensity: nat)

  /** The fields of a packet, as raw integers (angles in hundredths of a degree). */
  datatype Packet = Packet(speed: nat, startRaw: nat, samples: seq<Sample>, endRaw: nat, timestamp: nat)

  predicate SampleFits(s: Sample)
  {
    s.distanceMm < 65536 && s.intensity < 256
  }

  predicate WellFormed(p: Packet)
  {
    p.speed < 65536 && p.startRaw < 65536 && p.endRaw < 65536 && p.timestamp < 65536 &&
    |p.samples| == PointsPerPacket && forall i :: 0 <= i < |p.samples| ==> SampleFits(p.samples[i])
  }

  /** The checksum of the first 46 bytes, as a byte. */
  function BodyCrc(bytes: seq<Byte>): Byte
    requires |bytes| >= 46
  {
    Crc8(Bits(bytes[..46])) as int
  }

  /** The frame check: header pair, length 47, and the CRC of the first 46 bytes in byte 46. */
  predicate PacketAccepted(bytes: seq<Byte>)
  {
    |bytes| == PacketLength && bytes[0] == HeaderByte && bytes[1] == VerLenByte &&
    BodyCrc(bytes) == bytes[46]
  }

  /** The `i`-th record, which occupies bytes `6 + 3i`, `7 + 3i` (distance) and `8 + 3i` (intensity). */
  function SampleAt(bytes: seq<Byte>, i: nat): Sample
    requires |bytes| == PacketLength && i < PointsPerPacket
  {
    Sample(Le16(bytes[6 + 3 * i], bytes[7 + 3 * i]), bytes[8 + 3 * i])
  }

  function DecodeSamples(bytes: seq<Byte>, n: nat): (r: seq<Sample>)
    requires |bytes| == PacketLength && n <= PointsPerPacket
    ensures |r| == n && forall i :: 0 <= i < n ==> r[i] == SampleAt(bytes, i) && SampleFits(r[i])
  {
    if n == 0 then [] else DecodeSamples(bytes, n - 1) + [SampleAt(bytes, n - 1)]
  }

  function DecodePacket(bytes: seq<Byte>): (p: Packet)
    requires |bytes| == PacketLength
    ensures WellFormed(p)
  {
    Packet(Le16(bytes[2], bytes[3]), Le16(bytes[4], bytes[5]), DecodeSamples(bytes, PointsPerPacket),
           Le16(bytes[42], bytes[43]), Le16(bytes[44], bytes[45]))
  }

  function SampleBytes(samples: seq<Sample>): (r: seq<Byte>)
    requires forall i :: 0 <= i < |samples| ==> SampleFits(samples[i])
    ensures |r| == 3 * |samples|
  {
    if |samples| == 0 then []
    else
      var last := samples[|samples| - 1];
      assert SampleFits(last);
      SampleBytes(samples[..|samples| - 1]) + Le16Bytes(last.distanceMm) + [last.intensity]
  }

  /** The 46 bytes covered by the checksum. */
  function PacketBody(p: Packet): (r: seq<Byte>)
    requires WellFormed(p)
    ensures |r| == 46
  {
    [HeaderByte, VerLenByte] + Le16Bytes(p.speed) + Le16Bytes(p.startRaw) + SampleBytes(p.samples) +
    Le16Bytes(p.endRaw) + Le16Bytes(p.timestamp)
  }

  /** The packet as the sensor sends it; every encoding passes the frame check. */
  function EncodePacket(p: Packet): (r: seq<Byte>)
    requires WellFormed(p)
    ensures PacketAccepted(r)
  {
    var body := PacketBody(p);
    var crc: Byte := Crc8(Bits(body)) as int;
    assert (body + [crc])[..46] == body;
    body + [crc]
  }

  /** The twelve records exactly tile bytes 6 to 41: re-encoding the decoded records gives those bytes. */
  lemma {:induction false} SamplesTileRecordBytes(bytes: seq<Byte>, n: nat)
    requires |bytes| == PacketLength && n <= PointsPerPacket
    ensures SampleBytes(DecodeSamples(bytes, n)) == bytes[6..6 + 3 * n]
  {
    if n > 0 {
      SamplesTileRecordBytes(bytes, n - 1);
      TileStep(bytes, n, DecodeSamples(bytes, n - 1));
    }
  }

  /** One more record extends the tiled bytes by its three bytes. */
  lemma TileStep(bytes: seq<Byte>, n: nat, init: seq<Sample>)
    requires |bytes| == PacketLength && 0 < n <= PointsPerPacket
    requires |init| == n - 1 && forall i :: 0 <= i < n - 1 ==> SampleFits(init[i])
    requires SampleBytes(init) == bytes[6..6 + 3 * (n - 1)]
    ensures SampleBytes(init + [SampleAt(bytes, n - 1)]) == bytes[6..6 + 3 * n]
  {
    var k := 6 + 3 * (n - 1);
    AppendRecord(init, bytes[6..k], bytes[k], bytes[k + 1], bytes[k + 2]);
    SliceExtendByThree(bytes, 6, k);
  }

  /** Appending the record read from `lo, hi, intensity` appends exactly those bytes. */
  lemma AppendRecord(init: seq<Sample>, prefix: seq<Byte>, lo: Byte, hi: Byte, intensity: Byte)
    requires forall i :: 0 <= i < |init| ==> SampleFits(init[i])
    requires SampleBytes(init) == prefix
    ensures SampleBytes(init + [Sample(Le16(lo, hi), intensity)]) == prefix + [lo, hi] + [intensity]
  {
    var s := init + [Sample(Le16(lo, hi), intensity)];
    assert s[..|init|] == init;
    Le16BytesOfLe16(lo, hi);
  }

  lemma SliceExtendByThree(bytes: seq<Byte>, i: nat, k: nat)
    requires i <= k && k + 3 <= |bytes|
    ensures bytes[i..k + 3] == bytes[i..k] + [bytes[k], bytes[k + 1]] + [bytes[k + 2]]
  {
  }

  /** The bytes of record `i` inside the encoded records. */
  lemma {:induction false} SampleBytesAt(samples: seq<Sample>, i: nat)
    requires forall j :: 0 <= j < |samples| ==> SampleFits(samples[j])
    requires i < |samples|
    ensures SampleBytes(samples)[3 * i..3 * i + 3] == Le16Bytes(samples[i].distanceMm) + [samples[i].intensity]
    decreases |samples|
  {
    var n := |samples|;
    var prefix := samples[..n - 1];
    if i < n - 1 {
      SampleBytesAt(prefix, i);
      var last := samples[n - 1];
      var b := SampleBytes(samples);
      assert b == SampleBytes(prefix) + Le16Bytes(last.distanceMm) + [last.intensity];
      assert b[3 * i..3 * i + 3] == SampleBytes(prefix)[3 * i..3 * i + 3];
    }
  }

  /** Where each field sits in the checksummed body. */
  lemma BodyLayout(p: Packet)
    requires WellFormed(p)
    ensures var body := PacketBody(p);
      body[0] == HeaderByte && body[1] == VerLenByte &&
      body[2..4] == Le16Bytes(p.speed) && body[4..6] == Le16Bytes(p.startRaw) &&
      body[6..42] == SampleBytes(p.samples) &&
      body[42..44] == Le16Bytes(p.endRaw) && body[44..46] == Le16Bytes(p.timestamp)
  {
  }

  /** Decoding an encoded packet recovers every field. */
  lemma DecodeEncode(p: Packet)
    requires WellFormed(p)
    ensures DecodePacket(EncodePacket(p)) == p
  {
    var bytes := EncodePacket(p);
    var body := PacketBody(p);
    assert bytes[..46] == body;
    BodyLayout(p);
    var d := DecodeSamples(bytes, PointsPerPacket);
    forall i | 0 <= i < PointsPerPacket
      ensures d[i] == p.samples[i]
    {
      RecordDecodes(p.samples, bytes, i);
    }
    assert d == p.samples;
    assert bytes[2] == body[2..4][0] && bytes[3] == body[2..4][1];
    assert bytes[4] == body[4..6][0] && bytes[5] == body[4..6][1];
    assert bytes[42] == body[42..44][0] && bytes[43] == body[42..44][1];
    assert bytes[44] == body[44..46][0] && bytes[45] == body[44..46][1];
  }

  /** Record `i` decodes from its three bytes in an encoding. */
  lemma RecordDecodes(samples: seq<Sample>, bytes: seq<Byte>, i: nat)
    requires |samples| == PointsPerPacket && forall j :: 0 <= j < |samples| ==> SampleFits(samples[j])
    requires |bytes| == PacketLength && bytes[6..42] == SampleBytes(samples)
    requires i < PointsPerPacket
    ensures SampleAt(bytes, i) == samples[i]
  {
    var rec := SampleBytes(samples);
    SampleBytesAt(samples, i);
    var three := rec[3 * i..3 * i + 3];
    assert bytes[6 + 3 * i] == three[0] && bytes[7 + 3 * i] == three[1] && bytes[8 + 3 * i] == three[2];
  }

  /** An accepted packet is exactly the encoding of its decoded fields. */
  lemma EncodeDecode(bytes: seq<Byte>)
    requires PacketAccepted(bytes)
    ensures EncodePacket(DecodePacket(bytes)) == bytes
  {
    var p := DecodePacket(bytes);
    SamplesTileRecordBytes(bytes, PointsPerPacket);
    Le16BytesOfLe16(bytes[2], bytes[3]);
    Le16BytesOfLe16(bytes[4], bytes[5]);
    Le16BytesOfLe16(bytes[42], bytes[43]);
    Le16BytesOfLe16(bytes[44], bytes[45]);
    BodySplit(bytes);
    assert PacketBody(p) == bytes[..46];
    assert bytes == bytes[..46] + [bytes[46]];
  }

  /** The first 46 bytes of a frame, cut at the field boundaries. */
  lemma BodySplit(bytes: seq<Byte>)
    requires |bytes| == PacketLength
    ensures bytes[..46] == [bytes[0], bytes[1]] + [bytes[2], bytes[3]] + [bytes[4], bytes[5]] +
      bytes[6..42] + [bytes[42], bytes[43]] + [bytes[44], bytes[45]]
  {
  }

  /** Any single corrupted byte of an accepted packet makes it fail the frame check. */
  lemma SingleByteCorruptionRejected(good: seq<Byte>, bad: seq<Byte>, k: nat)
    requires PacketAccepted(good)
    requires |bad| == PacketLength && k < PacketLength && bad[k] != good[k]
    requires forall j :: 0 <= j < PacketLength && j != k ==> bad[j] == good[j]
    ensures !PacketAccepted(bad)
  {
    if 2 <= k < 46 {
      var s, t := good[..46], bad[..46];
      forall j | 0 <= j < 46 && j != k
        ensures s[j] == t[j]
      {
        assert good[j] == bad[j];
      }
      BitsSingleChange(s, t, k);
      BitsValueInjective(Crc8(Bits(s)), Crc8(Bits(t)));
    } else if k == 46 {
      assert good[..46] == bad[..46];
    }
  }

  /** Changing one byte changes the checksum of the bytes. */
  lemma BitsSingleChange(s: seq<Byte>, t: seq<Byte>, k: nat)
    requires |s| == |t| && k < |s| && s[k] != t[k]
    requires forall j :: 0 <= j < |s| && j != k ==> s[j] == t[j]
    ensures Crc8(Bits(s)) != Crc8(Bits(t))
  {
    BitsDifferAt(s, t, k);
    BitsAgreeElsewhere(s, t, k);
    SingleByteChangeDetected(Bits(s), Bits(t), k);
  }

  lemma BitsDifferAt(s: seq<Byte>, t: seq<Byte>, k: nat)
    requires |s| == |t| && k < |s| && s[k] != t[k]
    ensures Bits(s)[k] != Bits(t)[k]
  {
    BitsInjective(s[k], t[k]);
  }

  lemma BitsAgreeElsewhere(s: seq<Byte>, t: seq<Byte>, k: nat)
    requires |s| == |t|
    requires forall j :: 0 <= j < |s| && j != k ==> s[j] == t[j]
    ensures forall j :: 0 <= j < |s| && j != k ==> Bits(s)[j] == Bits(t)[j]
  {
  }

  // ---------------------------------------------------------------------------
  // Angles

  /** Python's `x % 360.0`: the representative in `[0, 360)` of `x` modulo 360. */
  function Mod360(x: real): (r: real)
    ensures 0.0 <= r < 360.0
    ensures x - r == 360.0 * ((x - r) / 360.0).Floor as real
  {
    x - 360.0 * (x / 360.0).Floor as real
  }

  /** Shifting by whole turns does not change the representative. */
  lemma Mod360Shift(x: real, k: int)
    ensures Mod360(x + 360.0 * k as real) == Mod360(x)
  {
    var n := (x / 360.0).Floor;
    assert (x + 360.0 * k as real) / 360.0 == x / 360.0 + k as real;
    assert ((x + 360.0 * k as real) / 360.0).Floor == n + k;
  }

  /** The representative is fixed on `[0, 360)`. */
  lemma Mod360InRange(x: real)
    requires 0.0 <= x < 360.0
    ensures Mod360(x) == x
  {
    assert (x / 360.0).Floor == 0;
  }

  function StartAngle(p: Packet): real
  {
    p.startRaw as real / 100.0
  }

  function EndAngle(p: Packet): real
  {
    p.endRaw as real / 100.0
  }

  /** The angular span of a packet, corrected by one turn when the end angle passed zero. */
  function AngleSpan(start: real, end: real): real
  {
    var diff := end - start;
    if diff < 0.0 then diff + 360.0 else diff
  }

  function AngleStep(start: real, end: real): real
  {
    AngleSpan(start, end) / 11.0
  }

  /** The twelve angles of a packet, spread evenly from the start angle to the end angle. */
  function InterpolatedAngles(start: real, end: real): (r: seq<real>)
    ensures |r| == PointsPerPacket
    ensures forall i :: 0 <= i < |r| ==> 0.0 <= r[i] < 360.0
  {
    seq(PointsPerPacket, i requires 0 <= i < PointsPerPacket => InterpolatedAngle(start, end, i))
  }

  /** `n * step` for a whole number `n` of steps, written as repeated addition. */
  function Times(n: nat, step: real): real
  {
    if n == 0 then 0.0 else Times(n - 1, step) + step
  }

  lemma {:induction false} TimesIsProduct(n: nat, step: real)
    ensures Times(n, step) == n as real * step
  {
    if n > 0 {
      TimesIsProduct(n - 1, step);
      assert n as real * step == (n - 1) as real * step + step;
    }
  }

  /** Angle `i` of a packet: `(start + i * step) % 360`. */
  function InterpolatedAngle(start: real, end: real, i: nat): (r: real)
    ensures 0.0 <= r < 360.0
  {
    Mod360(start + Times(i, AngleStep(start, end)))
  }

  /** The first angle is the start angle and the last the end angle, both modulo 360. */
  lemma InterpolationEnds(start: real, end: real)
    ensures InterpolatedAngles(start, end)[0] == Mod360(start)
    ensures InterpolatedAngles(start, end)[11] == Mod360(end)
  {
    var a := InterpolatedAngles(start, end);
    assert a[0] == Mod360(start + 0.0);
    TimesIsProduct(11, AngleStep(start, end));
    assert start + Times(11, AngleStep(start, end)) == start + AngleSpan(start, end);
    if end - start < 0.0 {
      Mod360Shift(end, 1);
      assert start + AngleSpan(start, end) == end + 360.0 * 1 as real;
    }
  }

  /** Reducing before adding a further amount does not change the result. */
  lemma Mod360AddReduced(x: real, d: real)
    ensures Mod360(Mod360(x) + d) == Mod360(x + d)
  {
    var r := Mod360(x);
    var k := ((x - r) / 360.0).Floor;
    assert r + d == (x + d) + 360.0 * (-k) as real;
    Mod360Shift(x + d, -k);
  }

  /** Consecutive angles are one step apart, modulo 360. */
  lemma InterpolationEvenlySpaced(start: real, end: real, i: nat)
    requires i < 11
    ensures InterpolatedAngles(start, end)[i + 1] == Mod360(InterpolatedAngles(start, end)[i] + AngleStep(start, end))
  {
    var step := AngleStep(start, end);
    var x := start + Times(i, step);
    assert InterpolatedAngles(start, end)[i] == Mod360(x);
    assert InterpolatedAngles(start, end)[i + 1] == Mod360(x + step);
    Mod360AddReduced(x, step);
  }

  /** A packet from 0 to 0.33 degrees has its points 0.03 degrees apart. */
  lemma InterpolationExample()
    ensures forall i :: 0 <= i < 12 ==> InterpolatedAngles(0.0, 0.33)[i] == 0.03 * i as real
  {
    forall i | 0 <= i < 12
      ensures InterpolatedAngles(0.0, 0.33)[i] == 0.03 * i as real
    {
      TimesIsProduct(i, AngleStep(0.0, 0.33));
      Mod360InRange(0.03 * i as real);
    }
  }

  /** A packet from 355 to 0.5 degrees crosses zero: its eleventh point is 0, its last 0.5. */
  lemma InterpolationAcrossZero()
    ensures InterpolatedAngles(355.0, 0.5)[9] == 359.5
    ensures InterpolatedAngles(355.0, 0.5)[10] == 0.0
    ensures InterpolatedAngles(355.0, 0.5)[11] == 0.5
  {
    assert AngleStep(355.0, 0.5) == 0.5;
    Mod360InRange(359.5);
    Mod360Shift(0.0, 1);
    Mod360InRange(0.0);
    Mod360Shift(0.5, 1);
    Mod360InRange(0.5);
    TimesIsProduct(9, 0.5);
    TimesIsProduct(10, 0.5);
    TimesIsProduct(11, 0.5);
    assert 355.0 + Times(10, 0.5) == 0.0 + 360.0 * 1 as real;
    assert 355.0 + Times(11, 0.5) == 0.5 + 360.0 * 1 as real;
  }

  /** The points a packet contributes: angle `i`, the distance in metres, the intensity and validity. */
  function PacketPoints(p: Packet): (r: seq<LidarPoint>)
    requires WellFormed(p)
    ensures |r| == PointsPerPacket
    ensures forall i :: 0 <= i < |r| ==>
      (0.0 <= r[i].angle < 360.0 && (r[i].valid <==> 50 < p.samples[i].distanceMm < 12000))
  {
    var angles := InterpolatedAngles(StartAngle(p), EndAngle(p));
    seq(PointsPerPacket, i requires 0 <= i < PointsPerPacket =>
      var mm := p.samples[i].distanceMm;
      ValidIffRawRange(mm);
      LidarPoint(angles[i], MmToMetres(mm), p.samples[i].intensity, IsValidDistance(MmToMetres(mm))))
  }

  // ---------------------------------------------------------------------------
  // Reading a sweep

  /** The result of one `read(n)` on the serial port: the bytes delivered, or an exception. */
  datatype ReadResult = Bytes(data: seq<Byte>) | ReadError

  /** A read of `n` bytes never delivers more than `n`. */
  function Take(data: seq<Byte>, n: nat): (r: seq<Byte>)
    ensures |r| <= n && |r| <= |data| && r == data[..|r|]
    ensures |data| >= n ==> |r| == n
  {
    if |data| <= n then data else data[..n]
  }

  /** Progress through a sweep: the points so far, the previous packet's end angle, and whether the sweep wrapped. */
  datatype Assembly = Assembly(points: seq<LidarPoint>, lastEnd: Option<real>, complete: bool)

  const Fresh: Assembly := Assembly([], None, false)

  /** A new packet starts a new revolution when it starts well (more than 180 degrees) before the previous one ended. */
  predicate Wraps(lastEnd: real, start: real)
  {
    start < lastEnd && lastEnd - start > 180.0
  }

  /** Absorbing an accepted packet: its 12 points are always appended, even when it completes the sweep. */
  function Absorb(a: Assembly, p: Packet): (r: Assembly)
    requires WellFormed(p)
    ensures r.lastEnd == Some(EndAngle(p))
    ensures |r.points| == |a.points| + PointsPerPacket && r.points[..|a.points|] == a.points
    ensures !a.complete && a.lastEnd.None? ==> !r.complete
  {
    var wrapped := a.lastEnd.Some? && Wraps(a.lastEnd.value, StartAngle(p));
    Assembly(a.points + PacketPoints(p), Some(EndAngle(p)), a.complete || wrapped)
  }

  /** The read loop over the remaining read results: a header pair is read as one unit
      and a wrong pair is dropped whole; the 45 remaining bytes follow; a short or
      corrupt packet is skipped; a read error ends the loop; running out of results is
      the loop's timeout; a completed sweep ends it. */
  function Collect(results: seq<ReadResult>, a: Assembly): Assembly
    decreases |results|
  {
    if a.complete || |results| == 0 then a
    else match results[0]
      case ReadError => a
      case Bytes(h) =>
        var header := Take(h, 2);
        if |header| < 2 || header[0] != HeaderByte || header[1] != VerLenByte then Collect(results[1..], a)
        else if |results| == 1 then a
        else match results[1]
          case ReadError => a
          case Bytes(rest) =>
            var bytes := header + Take(rest, 45);
            if !PacketAccepted(bytes) then Collect(results[2..], a)
            else Collect(results[2..], Absorb(a, DecodePacket(bytes)))
  }

  /** The packets the framing accepts, in order, before an error or the end of the results. */
  function AcceptedPackets(results: seq<ReadResult>): (r: seq<Packet>)
    ensures forall i :: 0 <= i < |r| ==> WellFormed(r[i])
    decreases |results|
  {
    if |results| == 0 then []
    else match results[0]
      case ReadError => []
      case Bytes(h) =>
        var header := Take(h, 2);
        if |header| < 2 || header[0] != HeaderByte || header[1] != VerLenByte then AcceptedPackets(results[1..])
        else if |results| == 1 then []
        else match results[1]
          case ReadError => []
          case Bytes(rest) =>
            var bytes := header + Take(rest, 45);
            if !PacketAccepted(bytes) then AcceptedPackets(results[2..])
            else [DecodePacket(bytes)] + AcceptedPackets(results[2..])
  }

  /** Every accepted packet is the decoding of bytes that pass the frame check. */
  lemma {:induction false} AcceptedPacketsPassCheck(results: seq<ReadResult>)
    ensures forall p :: p in AcceptedPackets(results) ==>
      exists bytes :: PacketAccepted(bytes) && DecodePacket(bytes) == p
    decreases |results|
  {
    if |results| > 0 && results[0].Bytes? {
      var header := Take(results[0].data, 2);
      if |header| < 2 || header[0] != HeaderByte || header[1] != VerLenByte {
        AcceptedPacketsPassCheck(results[1..]);
      } else if |results| > 1 && results[1].Bytes? {
        var bytes := header + Take(results[1].data, 45);
        AcceptedPacketsPassCheck(results[2..]);
        if PacketAccepted(bytes) {
          assert DecodePacket(bytes) in AcceptedPackets(results) ==> PacketAccepted(bytes);
        }
      }
    }
  }

  /** Folding `Absorb` over packets until the sweep completes. */
  function AssemblePackets(packets: seq<Packet>, a: Assembly): Assembly
    requires forall i :: 0 <= i < |packets| ==> WellFormed(packets[i])
    decreases |packets|
  {
    if a.complete || |packets| == 0 then a else AssemblePackets(packets[1..], Absorb(a, packets[0]))
  }

  /** The read loop is the framing layer followed by the assembly of the accepted packets. */
  lemma {:induction false} CollectIsFramingThenAssembly(results: seq<ReadResult>, a: Assembly)
    ensures Collect(results, a) == AssemblePackets(AcceptedPackets(results), a)
    decreases |results|
  {
    if |results| > 0 && results[0].Bytes? {
      var header := Take(results[0].data, 2);
      if |header| < 2 || header[0] != HeaderByte || header[1] != VerLenByte {
        CollectIsFramingThenAssembly(results[1..], a);
      } else if |results| > 1 && results[1].Bytes? {
        var bytes := header + Take(results[1].data, 45);
        if !PacketAccepted(bytes) {
          CollectIsFramingThenAssembly(results[2..], a);
        } else if !a.complete {
          var rest := AcceptedPackets(results[2..]);
          assert AcceptedPackets(results) == [DecodePacket(bytes)] + rest;
          assert AcceptedPackets(results)[1..] == rest;
          CollectIsFramingThenAssembly(results[2..], Absorb(a, DecodePacket(bytes)));
        }
      }
    }
  }

  /** The points of all the given packets, in order. */
  function AllPoints(packets: seq<Packet>): (r: seq<LidarPoint>)
    requires forall i :: 0 <= i < |packets| ==> WellFormed(packets[i])
    ensures |r| == PointsPerPacket * |packets|
  {
    if |packets| == 0 then [] else AllPoints(packets[..|packets| - 1]) + PacketPoints(packets[|packets| - 1])
  }

  /** The end angle seen before packet `k`: the given one for `k == 0`, the previous packet's otherwise. */
  function EndBefore(packets: seq<Packet>, lastEnd: Option<real>, k: nat): Option<real>
    requires k <= |packets|
  {
    if k == 0 then lastEnd else Some(EndAngle(packets[k - 1]))
  }

  /** Packet `k` completes the sweep. */
  predicate WrapsAt(packets: seq<Packet>, lastEnd: Option<real>, k: nat)
  {
    k < |packets| && EndBefore(packets, lastEnd, k).Some? &&
    Wraps(EndBefore(packets, lastEnd, k).value, StartAngle(packets[k]))
  }

  /** The first accepted packet of a read never completes a sweep. */
  lemma FirstPacketNeverWraps(packets: seq<Packet>)
    ensures !WrapsAt(packets, None, 0)
  {
  }

  /** Dropping the first packet shifts the wrap positions by one, with its end angle as the new previous end. */
  lemma WrapsAtShift(packets: seq<Packet>, lastEnd: Option<real>, j: nat)
    requires |packets| > 0
    ensures WrapsAt(packets[1..], Some(EndAngle(packets[0])), j) <==> WrapsAt(packets, lastEnd, j + 1)
    ensures j + 1 <= |packets| ==> EndBefore(packets[1..], Some(EndAngle(packets[0])), j) == EndBefore(packets, lastEnd, j + 1)
  {
    if j > 0 && j < |packets| - 1 {
      assert packets[1..][j - 1] == packets[j];
    }
  }

  /** Assembly in closed form: if packet `n - 1` is the first to complete the sweep, the
      points of packets `0..n` (the completing one included) are kept and nothing after;
      if none completes, the points of all packets are kept and the sweep stays open. */
  lemma {:induction false} AssembleClosedForm(packets: seq<Packet>, a: Assembly, n: nat)
    requires forall i :: 0 <= i < |packets| ==> WellFormed(packets[i])
    requires !a.complete
    requires n <= |packets|
    requires forall j :: 0 <= j < n - 1 ==> !WrapsAt(packets, a.lastEnd, j)
    requires n < |packets| ==> 0 < n && WrapsAt(packets, a.lastEnd, n - 1)
    ensures AssemblePackets(packets, a).points == a.points + AllPoints(packets[..n])
    ensures AssemblePackets(packets, a).lastEnd == EndBefore(packets, a.lastEnd, n)
    ensures AssemblePackets(packets, a).complete <==> 0 < n && WrapsAt(packets, a.lastEnd, n - 1)
    decreases |packets|
  {
    if |packets| == 0 {
      assert packets[..n] == [];
    } else if n == 0 {
      assert false;
    } else {
      var b := Absorb(a, packets[0]);
      var rest := packets[1..];
      assert b.complete <==> WrapsAt(packets, a.lastEnd, 0);
      assert AssemblePackets(packets, a) == AssemblePackets(rest, b);
      FirstPacketPoints(packets, a, n);
      if b.complete {
        assert n == 1;
      } else {
        forall j | 0 <= j < n - 2
          ensures !WrapsAt(rest, b.lastEnd, j)
        {
          WrapsAtShift(packets, a.lastEnd, j);
        }
        if n >= 2 {
          WrapsAtShift(packets, a.lastEnd, n - 2);
        }
        WrapsAtShift(packets, a.lastEnd, n - 1);
        AssembleClosedForm(rest, b, n - 1);
      }
    }
  }

  /** The points of the first `n` packets, seen from the first packet's absorption. */
  lemma FirstPacketPoints(packets: seq<Packet>, a: Assembly, n: nat)
    requires forall i :: 0 <= i < |packets| ==> WellFormed(packets[i])
    requires 0 < n <= |packets|
    ensures Absorb(a, packets[0]).points + AllPoints(packets[1..][..n - 1]) == a.points + AllPoints(packets[..n])
    ensures EndBefore(packets[1..], Absorb(a, packets[0]).lastEnd, n - 1) == EndBefore(packets, a.lastEnd, n)
  {
    AllPointsCons(packets[..n]);
    assert packets[..n][0] == packets[0];
    assert packets[..n][1..] == packets[1..][..n - 1];
    if n > 1 {
      assert packets[1..][n - 2] == packets[n - 1];
    }
  }

  /** `AllPoints` read from the front. */
  lemma {:induction false} AllPointsCons(packets: seq<Packet>)
    requires forall i :: 0 <= i < |packets| ==> WellFormed(packets[i])
    requires |packets| > 0
    ensures AllPoints(packets) == PacketPoints(packets[0]) + AllPoints(packets[1..])
    decreases |packets|
  {
    if |packets| > 1 {
      var init := packets[..|packets| - 1];
      AllPointsCons(init);
      assert init[1..] == packets[1..][..|packets| - 2];
    } else {
      assert packets[..0] == [] && packets[1..] == [];
    }
  }

  // ---------------------------------------------------------------------------
  // Finishing a scan

  /** Python's `round` on a number: the nearest integer, ties going to the even one. */
  function RoundHalfEven(x: real): (r: int)
    ensures AbsReal(x - r as real) <= 0.5
    ensures AbsReal(x - r as real) == 0.5 ==> r % 2 == 0
  {
    var f := x.Floor;
    var frac := x - f as real;
    if frac < 0.5 then f
    else if frac > 0.5 then f + 1
    else if f % 2 == 0 then f
    else f + 1
  }

  /** Python rounding examples: 359.6 goes to 360 (not 0), and halves go to the even neighbour. */
  lemma RoundingExamples()
    ensures RoundHalfEven(359.6) == 360
    ensures RoundHalfEven(0.5) == 0 && RoundHalfEven(1.5) == 2 && RoundHalfEven(2.5) == 2
    ensures RoundHalfEven(359.4) == 359
  {
    assert (359.6).Floor == 359;
    assert (0.5).Floor == 0;
    assert (1.5).Floor == 1;
    assert (2.5).Floor == 2;
    assert (359.4).Floor == 359;
  }

  /** The whole-degree bucket of a point. */
  function Bucket(p: LidarPoint): int
  {
    RoundHalfEven(p.angle)
  }

  function Angle(p: LidarPoint): real
  {
    p.angle
  }

  function BucketSet(s: seq<LidarPoint>): set<int>
  {
    set i | 0 <= i < |s| :: Bucket(s[i])
  }

  /** Keeps the first point of every bucket, in order. */
  function FirstPerBucket(s: seq<LidarPoint>): seq<LidarPoint>
  {
    if |s| == 0 then []
    else
      var kept := FirstPerBucket(s[..|s| - 1]);
      if Bucket(s[|s| - 1]) in BucketSet(kept) then kept else kept + [s[|s| - 1]]
  }

  /** The first point of `s` in bucket `b`, if any. */
  function FirstInBucket(s: seq<LidarPoint>, b: int): Option<LidarPoint>
  {
    if |s| == 0 then None
    else if Bucket(s[0]) == b then Some(s[0])
    else FirstInBucket(s[1..], b)
  }

  /** `r` is obtained from `s` by deleting elements. */
  predicate IsSubsequence(r: seq<LidarPoint>, s: seq<LidarPoint>)
    decreases |s|
  {
    |r| == 0 ||
    (|s| > 0 &&
     ((r[|r| - 1] == s[|s| - 1] && IsSubsequence(r[..|r| - 1], s[..|s| - 1])) ||
      IsSubsequence(r, s[..|s| - 1])))
  }

  /** The finished scan: sorted by angle, then one point per whole degree. */
  function FinishPoints(points: seq<LidarPoint>): seq<LidarPoint>
  {
    FirstPerBucket(SortBy(points, Angle))
  }

  lemma {:induction false} FirstInBucketSnoc(s: seq<LidarPoint>, x: LidarPoint, b: int)
    ensures FirstInBucket(s + [x], b) ==
      if FirstInBucket(s, b).Some? then FirstInBucket(s, b) else if Bucket(x) == b then Some(x) else None
    decreases |s|
  {
    if |s| == 0 {
      assert (s + [x])[1..] == [];
    } else {
      assert (s + [x])[1..] == s[1..] + [x];
      FirstInBucketSnoc(s[1..], x, b);
    }
  }

  lemma {:induction false} FirstInBucketPresent(s: seq<LidarPoint>, b: int)
    ensures FirstInBucket(s, b).Some? <==> b in BucketSet(s)
    decreases |s|
  {
    if |s| > 0 {
      FirstInBucketPresent(s[1..], b);
      if b in BucketSet(s) && Bucket(s[0]) != b {
        var i :| 0 <= i < |s| && Bucket(s[i]) == b;
        assert Bucket(s[1..][i - 1]) == b;
      }
      if b in BucketSet(s[1..]) {
        var i :| 0 <= i < |s| - 1 && Bucket(s[1..][i]) == b;
        assert Bucket(s[i + 1]) == b;
      }
    }
  }

  lemma BucketSetSnoc(s: seq<LidarPoint>, x: LidarPoint)
    ensures BucketSet(s + [x]) == BucketSet(s) + {Bucket(x)}
  {
    var t := s + [x];
    forall b | b in BucketSet(t)
      ensures b in BucketSet(s) + {Bucket(x)}
    {
      var i :| 0 <= i < |t| && Bucket(t[i]) == b;
      if i < |s| { assert t[i] == s[i]; }
    }
    forall b | b in BucketSet(s)
      ensures b in BucketSet(t)
    {
      var i :| 0 <= i < |s| && Bucket(s[i]) == b;
      assert t[i] == s[i];
    }
    assert t[|s|] == x;
  }

  /** The buckets of the kept points are pairwise distinct, and no bucket of the input is lost. */
  lemma {:induction false} FirstPerBucketBuckets(s: seq<LidarPoint>)
    ensures BucketSet(FirstPerBucket(s)) == BucketSet(s)
    ensures forall i, j :: 0 <= i < j < |FirstPerBucket(s)| ==>
      Bucket(FirstPerBucket(s)[i]) != Bucket(FirstPerBucket(s)[j])
    decreases |s|
  {
    if |s| > 0 {
      var init := s[..|s| - 1];
      var x := s[|s| - 1];
      FirstPerBucketBuckets(init);
      BucketSetSnoc(init, x);
      assert init + [x] == s;
      var kept := FirstPerBucket(init);
      if Bucket(x) !in BucketSet(kept) {
        BucketSetSnoc(kept, x);
        var r := kept + [x];
        forall i, j | 0 <= i < j < |r|
          ensures Bucket(r[i]) != Bucket(r[j])
        {
          if j == |kept| {
            assert Bucket(r[i]) in BucketSet(kept) by { assert r[i] == kept[i]; }
          } else {
            assert r[i] == kept[i] && r[j] == kept[j];
          }
        }
      }
    }
  }

  /** Each kept point is the first point of its bucket in the input. */
  lemma {:induction false} FirstPerBucketKeepsFirst(s: seq<LidarPoint>)
    ensures forall k :: 0 <= k < |FirstPerBucket(s)| ==>
      FirstInBucket(s, Bucket(FirstPerBucket(s)[k])) == Some(FirstPerBucket(s)[k])
    decreases |s|
  {
    if |s| > 0 {
      var init := s[..|s| - 1];
      var x := s[|s| - 1];
      assert init + [x] == s;
      FirstPerBucketKeepsFirst(init);
      FirstPerBucketBuckets(init);
      var kept := FirstPerBucket(init);
      var r := FirstPerBucket(s);
      forall k | 0 <= k < |r|
        ensures FirstInBucket(s, Bucket(r[k])) == Some(r[k])
      {
        FirstInBucketSnoc(init, x, Bucket(r[k]));
        if k < |kept| {
          assert r[k] == kept[k];
        } else {
          assert r[k] == x && Bucket(x) !in BucketSet(kept);
          FirstInBucketPresent(init, Bucket(x));
        }
      }
    }
  }

  /** The kept points appear in the input in the same order. */
  lemma {:induction false} FirstPerBucketSubsequence(s: seq<LidarPoint>)
    ensures IsSubsequence(FirstPerBucket(s), s)
    decreases |s|
  {
    if |s| > 0 {
      var init := s[..|s| - 1];
      FirstPerBucketSubsequence(init);
      var kept := FirstPerBucket(init);
      if Bucket(s[|s| - 1]) in BucketSet(kept) {
        if |kept| > 0 {
          assert IsSubsequence(kept, init);
        }
      } else {
        var r := kept + [s[|s| - 1]];
        assert r[..|r| - 1] == kept;
      }
    }
  }

  /** Every element of a subsequence is an element of the whole. */
  lemma {:induction false} SubsequenceMembers(r: seq<LidarPoint>, s: seq<LidarPoint>)
    requires IsSubsequence(r, s)
    ensures forall x :: x in r ==> x in s
    decreases |s|
  {
    if |r| > 0 {
      var si := s[..|s| - 1];
      if r[|r| - 1] == s[|s| - 1] && IsSubsequence(r[..|r| - 1], si) {
        SubsequenceMembers(r[..|r| - 1], si);
        forall x | x in r
          ensures x in s
        {
          var i :| 0 <= i < |r| && r[i] == x;
          if i < |r| - 1 {
            assert r[..|r| - 1][i] == x;
            assert x in r[..|r| - 1];
            var m :| 0 <= m < |si| && si[m] == x;
            assert s[m] == x;
          } else {
            assert s[|s| - 1] == x;
          }
        }
      } else {
        SubsequenceMembers(r, si);
        forall x | x in r
          ensures x in s
        {
          var m :| 0 <= m < |si| && si[m] == x;
          assert s[m] == x;
        }
      }
    }
  }

  /** Deleting elements from an ordered sequence leaves it ordered. */
  lemma {:induction false} SubsequenceSorted(r: seq<LidarPoint>, s: seq<LidarPoint>)
    requires IsSubsequence(r, s) && SortedBy(s, Angle)
    ensures SortedBy(r, Angle)
    decreases |s|
  {
    if |r| > 0 {
      var si := s[..|s| - 1];
      assert SortedBy(si, Angle);
      if r[|r| - 1] == s[|s| - 1] && IsSubsequence(r[..|r| - 1], si) {
        var ri := r[..|r| - 1];
        SubsequenceSorted(ri, si);
        SubsequenceMembers(ri, si);
        forall i, j | 0 <= i < j < |r|
          ensures Angle(r[i]) <= Angle(r[j])
        {
          if j < |r| - 1 {
            assert r[i] == ri[i] && r[j] == ri[j];
          } else {
            assert ri[i] in si;
            var m :| 0 <= m < |si| && si[m] == ri[i];
            assert s[m] == r[i];
          }
        }
      } else {
        SubsequenceSorted(r, si);
      }
    }
  }

  /** The finished scan: ordered by angle, one point per bucket, every input bucket
      represented, each point the first of its bucket after the stable sort, and a
      subsequence of the sorted input. */
  lemma FinishPointsProperties(points: seq<LidarPoint>)
    ensures var sorted := SortBy(points, Angle); var r := FinishPoints(points);
      SortedBy(r, Angle) &&
      IsSubsequence(r, sorted) &&
      BucketSet(r) == BucketSet(points) &&
      (forall i, j :: 0 <= i < j < |r| ==> Bucket(r[i]) != Bucket(r[j])) &&
      (forall k :: 0 <= k < |r| ==> FirstInBucket(sorted, Bucket(r[k])) == Some(r[k]))
  {
    var sorted := SortBy(points, Angle);
    SortBySorted(points, Angle);
    SortByPermutes(points, Angle);
    FirstPerBucketSubsequence(sorted);
    SubsequenceSorted(FirstPerBucket(sorted), sorted);
    FirstPerBucketBuckets(sorted);
    FirstPerBucketKeepsFirst(sorted);
    SameElementsSameBuckets(sorted, points);
  }

  lemma SameElementsSameBuckets(s: seq<LidarPoint>, t: seq<LidarPoint>)
    requires multiset(s) == multiset(t)
    ensures BucketSet(s) == BucketSet(t)
  {
    forall b | b in BucketSet(s)
      ensures b in BucketSet(t)
    {
      var i :| 0 <= i < |s| && Bucket(s[i]) == b;
      assert s[i] in multiset(t);
      var j :| 0 <= j < |t| && t[j] == s[i];
    }
    forall b | b in BucketSet(t)
      ensures b in BucketSet(s)
    {
      var i :| 0 <= i < |t| && Bucket(t[i]) == b;
      assert t[i] in multiset(s);
      var j :| 0 <= j < |s| && s[j] == t[i];
    }
  }
}
