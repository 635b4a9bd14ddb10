/** The LD-19 packet checksum: a table-driven CRC-8 (polynomial 0x4D, seed 0,
    most significant bit first) over the first 46 bytes of a packet. */
module Ld19Crc {

  /** The 256-entry lookup table of the sensor's SDK, laid out as 16 rows of 16. */
  const TableRow00: seq<bv8> := [0x00, 0x4d, 0x9a, 0xd7, 0x79, 0x34, 0xe3, 0xae, 0xf2, 0xbf, 0x68, 0x25, 0x8b, 0xc6, 0x11, 0x5c]
  const TableRow01: seq<bv8> := [0xa9, 0xe4, 0x33, 0x7e, 0xd0, 0x9d, 0x4a, 0x07, 0x5b, 0x16, 0xc1, 0x8c, 0x22, 0x6f, 0xb8, 0xf5]
  const TableRow02: seq<bv8> := [0x1f, 0x52, 0x85, 0xc8, 0x66, 0x2b, 0xfc, 0xb1, 0xed, 0xa0, 0x77, 0x3a, 0x94, 0xd9, 0x0e, 0x43]
  const TableRow03: seq<bv8> := [0xb6, 0xfb, 0x2c, 0x61, 0xcf, 0x82, 0x55, 0x18, 0x44, 0x09, 0xde, 0x93, 0x3d, 0x70, 0xa7, 0xea]
  const TableRow04: seq<bv8> := [0x3e, 0x73, 0xa4, 0xe9, 0x47, 0x0a, 0xdd, 0x90, 0xcc, 0x81, 0x56, 0x1b, 0xb5, 0xf8, 0x2f, 0x62]
  const TableRow05: seq<bv8> := [0x97, 0xda, 0x0d, 0x40, 0xee, 0xa3, 0x74, 0x39, 0x65, 0x28, 0xff, 0xb2, 0x1c, 0x51, 0x86, 0xcb]
  const TableRow06: seq<bv8> := [0x21, 0x6c, 0xbb, 0xf6, 0x58, 0x15, 0xc2, 0x8f, 0xd3, 0x9e, 0x49, 0x04, 0xaa, 0xe7, 0x30, 0x7d]
  const TableRow07: seq<bv8> := [0x88, 0xc5, 0x12, 0x5f, 0xf1, 0xbc, 0x6b, 0x26, 0x7a, 0x37, 0xe0, 0xad, 0x03, 0x4e, 0x99, 0xd4]
  const TableRow08: seq<bv8> := [0x7c, 0x31, 0xe6, 0xab, 0x05, 0x48, 0x9f, 0xd2, 0x8e, 0xc3, 0x14, 0x59, 0xf7, 0xba, 0x6d, 0x20]
  const TableRow09: seq<bv8> := [0xd5, 0x98, 0x4f, 0x02, 0xac, 0xe1, 0x36, 0x7b, 0x27, 0x6a, 0xbd, 0xf0, 0x5e, 0x13, 0xc4, 0x89]
  const TableRow10: seq<bv8> := [0x63, 0x2e, 0xf9, 0xb4, 0x1a, 0x57, 0x80, 0xcd, 0x91, 0xdc, 0x0b, 0x46, 0xe8, 0xa5, 0x72, 0x3f]
  const TableRow11: seq<bv8> := [0xca, 0x87, 0x50, 0x1d, 0xb3, 0xfe, 0x29, 0x64, 0x38, 0x75, 0xa2, 0xef, 0x41, 0x0c, 0xdb, 0x96]
  const TableRow12: seq<bv8> := [0x42, 0x0f, 0xd8, 0x95, 0x3b, 0x76, 0xa1, 0xec, 0xb0, 0xfd, 0x2a, 0x67, 0xc9, 0x84, 0x53, 0x1e]
  const TableRow13: seq<bv8> := [0xeb, 0xa6, 0x71, 0x3c, 0x92, 0xdf, 0x08, 0x45, 0x19, 0x54, 0x83, 0xce, 0x60, 0x2d, 0xfa, 0xb7]
  const TableRow14: seq<bv8> := [0x5d, 0x10, 0xc7, 0x8a, 0x24, 0x69, 0xbe, 0xf3, 0xaf, 0xe2, 0x35, 0x78, 0xd6, 0x9b, 0x4c, 0x01]
  const TableRow15: seq<bv8> := [0xf4, 0xb9, 0x6e, 0x23, 0x8d, 0xc0, 0x17, 0x5a, 0x06, 0x4b, 0x9c, 0xd1, 0x7f, 0x32, 0xe5, 0xa8]

  const TableRows: seq<seq<bv8>> := [
    TableRow00, TableRow01, TableRow02, TableRow03, TableRow04, TableRow05, TableRow06, TableRow07,
    TableRow08, TableRow09, TableRow10, TableRow11, TableRow12, TableRow13, TableRow14, TableRow15]

  /** The table as one list of 256 entries, row after row. */
  function Table(): seq<bv8>
  {
    seq(256, i => TableEntry(i))
  }

  function TableEntry(i: int): bv8
  {
    if 0 <= i < 256 then TableRows[i / 16][i % 16] else 0
  }

  /** The checksum as a left fold: `crc := table[(crc ^ b) & 0xFF]` from `crc = 0`. */
  function Crc8(data: seq<bv8>): bv8
  {
    if |data| == 0 then 0 else Step(Crc8(data[..|data| - 1]), data[|data| - 1])
  }

  /** The loop of the source, proved to compute the fold. */
  method ComputeCrc8(data: seq<bv8>) returns (crc: bv8)
    ensures crc == Crc8(data)
  {
    crc := 0;
    var i := 0;
    while i < |data|
      invariant 0 <= i <= |data|
      invariant crc == Crc8(data[..i])
    {
      Crc8Prefix(data, i);
      crc := Table()[(crc ^ data[i]) as int];
      i := i + 1;
    }
    assert data[..i] == data;
  }

  /** One step of the bitwise (table-free) MSB-first CRC-8 with polynomial 0x4D. */
  function ShiftStep(c: bv8): bv8
  {
    if c & 0x80 != 0 then (c << 1) ^ 0x4D else c << 1
  }

  /** The table entry for `b` as the bitwise definition computes it: eight shift steps. */
  function BitwiseEntry(b: bv8): bv8
  {
    ShiftStep(ShiftStep(ShiftStep(ShiftStep(ShiftStep(ShiftStep(ShiftStep(ShiftStep(b))))))))
  }

  lemma TableChunk000(i: bv8)
    requires i < 2
    ensures Table()[i as int] == BitwiseEntry(i)
  {
    assert i == 0x00 || i == 0x01;
  }

  lemma TableChunk001(i: bv8)
    requires 2 <= i < 4
    ensures Table()[i as int] == BitwiseEntry(i)
  {
    assert i == 0x02 || i == 0x03;
  }

  lemma TableChunk002(i: bv8)
    requires 4 <= i < 6
    ensures Table()[i as int] == BitwiseEntry(i)
  {
    assert i == 0x04 || i == 0x05;
  }

  lemma TableChunk003(i: bv8)
    requires 6 <= i < 8
    ensures Table()[i as int] == BitwiseEntry(i)
  {
    assert i == 0x06 || i == 0x07;
  }

  lemma TableChunk004(i: bv8)
    requires 8 <= i < 10
    ensures Table()[i as int] == BitwiseEntry(i)
  {
    assert i == 0x08 || i == 0x09;
  }

  lemma TableChunk005(i: bv8)
    requires 10 <= i < 12
    ensures Table()[i as int] == BitwiseEntry(i)
  {
    assert i == 0x0a || i == 0x0b;
  }

  lemma TableChunk006(i: bv8)
    requires 12 <= i < 14
    ensures Table()[i as int] == BitwiseEntry(i)
  {
    assert i == 0x0c || i == 0x0d;
  }

  lemma TableChunk007(i: bv8)
    requires 14 <= i < 16
    ensures Table()[i as int] == BitwiseEntry(i)
  {
    assert i == 0x0e || i == 0x0f;
  }

  lemma TableChunk008(i: bv8)
    requires 16 <= i < 18
    ensures Table()[i as int] == BitwiseEntry(i)
  {
    assert i == 0x10 || i == 0x11;
  }

  lemma TableChunk009(i: bv8)
    requires 18 <= i < 20
    ensures Table()[i as int] == BitwiseEntry(i)
  {
    assert i == 0x12 || i == 0x13;
  }

  lemma TableChunk010(i: bv8)
    requires 20 <= i < 22
    ensures Table()[i as int] == BitwiseEntry(i)
  {
    assert i == 0x14 || i == 0x15;
  }

  lemma TableChunk011(i: bv8)
    requires 22 <= i < 24
    ensures Table()[i as int] == BitwiseEntry(i)
  {
    assert i == 0x16 || i == 0x17;
  }

  lemma TableChunk012(i: bv8)
    requires 24 <= i < 26
    ensures Table()[i as int] == BitwiseEntry(i)
  {
    assert i == 0x18 || i == 0x19;
  }

  lemma TableChunk013(i: bv8)
    requires 26 <= i < 28
    ensures Table()[i as int] == BitwiseEntry(i)
  {
    assert i == 0x1a || i == 0x1b;
  }

  lemma TableChunk014(i: bv8)
    requires 28 <= i < 30
    ensures Table()[i as int] == BitwiseEntry(i)
  {
    assert i == 0x1c || i == 0x1d;
  }

  lemma TableChunk015(i: bv8)
    requires 30 <= i < 32
    ensures Table()[i as int] == BitwiseEntry(i)
  {
    assert i == 0x1e || i == 0x1f;
  }

  lemma TableChunk016(i: bv8)
    requires 32 <= i < 34
    ensures Table()[i as int] == BitwiseEntry(i)
  {
    assert i == 0x20 || i == 0x21;
  }

  lemma TableChunk017(i: bv8)
    requires 34 <= i < 36
    ensures Table()[i as int] == BitwiseEntry(i)
  {
    assert i == 0x22 || i == 0x23;
  }

  lemma TableChunk018(i: bv8)
    requires 36 <= i < 38
    ensures Table()[i as int] == BitwiseEntry(i)
  {
    assert i == 0x24 || i == 0x25;
  }

  lemma TableChunk019(i: bv8)
    requires 38 <= i < 40
    ensures Table()[i as int] == BitwiseEntry(i)
  {
    assert i == 0x26 || i == 0x27;
  }

  lemma TableChunk020(i: bv8)
    requires 40 <= i < 42
    ensures Table()[i as int] == BitwiseEntry(i)
  {
    assert i == 0x28 || i == 0x29;
  }

  lemma TableChunk021(i: bv8)
    requires 42 <= i < 44
    ensures Table()[i as int] == BitwiseEntry(i)
  {
    assert i == 0x2a || i == 0x2b;
  }

  lemma TableChunk022(i: bv8)
    requires 44 <= i < 46
    ensures Table()[i as int] == BitwiseEntry(i)
  {
    assert i == 0x2c || i == 0x2d;
  }

  lemma TableChunk023(i: bv8)
    requires 46 <= i < 48
    ensures Table()[i as int] == BitwiseEntry(i)
  {
    assert i == 0x2e || i == 0x2f;
  }

  lemma TableChunk024(i: bv8)
    requires 48 <= i < 50
    ensures Table()[i as int] == BitwiseEntry(i)
  {
    assert i == 0x30 || i == 0x31;
  }

  lemma TableChunk025(i: bv8)
    requires 50 <= i < 52
    ensures Table()[i as int] == BitwiseEntry(i)
  {
    assert i == 0x32 || i == 0x33;
  }

  lemma TableChunk026(i: bv8)
    requires 52 <= i < 54
    ensures Table()[i as int] == BitwiseEntry(i)
  {
    assert i == 0x34 || i == 0x35;
  }

  lemma TableChunk027(i: bv8)
    requires 54 <= i < 56
    ensures Table()[i as int] == BitwiseEntry(i)
  {
    assert i == 0x36 || i == 0x37;
  }

  lemma TableChunk028(i: bv8)
    requires 56 <= i < 58
    ensures Table()[i as int] == BitwiseEntry(i)
  {
    assert i == 0x38 || i == 0x39;
  }

  lemma TableChunk029(i: bv8)
    requires 58 <= i < 60
    ensures Table()[i as int] == BitwiseEntry(i)
  {
    assert i == 0x3a || i == 0x3b;
  }

  lemma TableChunk030(i: bv8)
    requires 60 <= i < 62
    ensures Table()[i as int] == BitwiseEntry(i)
  {
    assert i == 0x3c || i == 0x3d;
  }

  lemma TableChunk031(i: bv8)
    requires 62 <= i < 64
    ensures Table()[i as int] == BitwiseEntry(i)
  {
    assert i == 0x3e || i == 0x3f;
  }

  lemma TableChunk032(i: bv8)
    requires 64 <= i < 66
    ensures Table()[i as int] == BitwiseEntry(i)
  {
    assert i == 0x40 || i == 0x41;
  }

  lemma TableChunk033(i: bv8)
    requires 66 <= i < 68
    ensures Table()[i as int] == BitwiseEntry(i)
  {
    assert i == 0x42 || i == 0x43;
  }

  lemma TableChunk034(i: bv8)
    requires 68 <= i < 70
    ensures Table()[i as int] == BitwiseEntry(i)
  {
    assert i == 0x44 || i == 0x45;
  }

  lemma TableChunk035(i: bv8)
    requires 70 <= i < 72
    ensures Table()[i as int] == BitwiseEntry(i)
  {
    assert i == 0x46 || i == 0x47;
  }

  lemma TableChunk036(i: bv8)
    requires 72 <= i < 74
    ensures Table()[i as int] == BitwiseEntry(i)
  {
    assert i == 0x48 || i == 0x49;
  }

  lemma TableChunk037(i: bv8)
    requires 74 <= i < 76
    ensures Table()[i as int] == BitwiseEntry(i)
  {
    assert i == 0x4a || i == 0x4b;
  }

  lemma TableChunk038(i: bv8)
    requires 76 <= i < 78
    ensures Table()[i as int] == BitwiseEntry(i)
  {
    assert i == 0x4c || i == 0x4d;
  }

  lemma TableChunk039(i: bv8)
    requires 78 <= i < 80
    ensures Table()[i as int] == BitwiseEntry(i)
  {
    assert i == 0x4e || i == 0x4f;
  }

  lemma TableChunk040(i: bv8)
    requires 80 <= i < 82
    ensures Table()[i as int] == BitwiseEntry(i)
  {
    assert i == 0x50 || i == 0x51;
  }

  lemma TableChunk041(i: bv8)
    requires 82 <= i < 84
    ensures Table()[i as int] == BitwiseEntry(i)
  {
    assert i == 0x52 || i == 0x53;
  }

  lemma TableChunk042(i: bv8)
    requires 84 <= i < 86
    ensures Table()[i as int] == BitwiseEntry(i)
  {
    assert i == 0x54 || i == 0x55;
  }

  lemma TableChunk043(i: bv8)
    requires 86 <= i < 88
    ensures Table()[i as int] == BitwiseEntry(i)
  {
    assert i == 0x56 || i == 0x57;
  }

  lemma TableChunk044(i: bv8)
    requires 88 <= i < 90
    ensures Table()[i as int] == BitwiseEntry(i)
  {
    assert i == 0x58 || i == 0x59;
  }

  lemma TableChunk045(i: bv8)
    requires 90 <= i < 92
    ensures Table()[i as int] == BitwiseEntry(i)
  {
    assert i == 0x5a || i == 0x5b;
  }

  lemma TableChunk046(i: bv8)
    requires 92 <= i < 94
    ensures Table()[i as int] == BitwiseEntry(i)
  {
    assert i == 0x5c || i == 0x5d;
  }

  lemma TableChunk047(i: bv8)
    requires 94 <= i < 96
    ensures Table()[i as int] == BitwiseEntry(i)
  {
    assert i == 0x5e || i == 0x5f;
  }

  lemma TableChunk048(i: bv8)
    requires 96 <= i < 98
    ensures Table()[i as int] == BitwiseEntry(i)
  {
    assert i == 0x60 || i == 0x61;
  }

  lemma TableChunk049(i: bv8)
    requires 98 <= i < 100
    ensures Table()[i as int] == BitwiseEntry(i)
  {
    assert i == 0x62 || i == 0x63;
  }

  lemma TableChunk050(i: bv8)
    requires 100 <= i < 102
    ensures Table()[i as int] == BitwiseEntry(i)
  {
    assert i == 0x64 || i == 0x65;
  }

  lemma TableChunk051(i: bv8)
    requires 102 <= i < 104
    ensures Table()[i as int] == BitwiseEntry(i)
  {
    assert i == 0x66 || i == 0x67;
  }

  lemma TableChunk052(i: bv8)
    requires 104 <= i < 106
    ensures Table()[i as int] == BitwiseEntry(i)
  {
    assert i == 0x68 || i == 0x69;
  }

  lemma TableChunk053(i: bv8)
    requires 106 <= i < 108
    ensures Table()[i as int] == BitwiseEntry(i)
  {
    assert i == 0x6a || i == 0x6b;
  }

  lemma TableChunk054(i: bv8)
    requires 108 <= i < 110
    ensures Table()[i as int] == BitwiseEntry(i)
  {
    assert i == 0x6c || i == 0x6d;
  }

  lemma TableChunk055(i: bv8)
    requires 110 <= i < 112
    ensures Table()[i as int] == BitwiseEntry(i)
  {
    assert i == 0x6e || i == 0x6f;
  }

  lemma TableChunk056(i: bv8)
    requires 112 <= i < 114
    ensures Table()[i as int] == BitwiseEntry(i)
  {
    assert i == 0x70 || i == 0x71;
  }

  lemma TableChunk057(i: bv8)
    requires 114 <= i < 116
    ensures Table()[i as int] == BitwiseEntry(i)
  {
    assert i == 0x72 || i == 0x73;
  }

  lemma TableChunk058(i: bv8)
    requires 116 <= i < 118
    ensures Table()[i as int] == BitwiseEntry(i)
  {
    assert i == 0x74 || i == 0x75;
  }

  lemma TableChunk059(i: bv8)
    requires 118 <= i < 120
    ensures Table()[i as int] == BitwiseEntry(i)
  {
    assert i == 0x76 || i == 0x77;
  }

  lemma TableChunk060(i: bv8)
    requires 120 <= i < 122
    ensures Table()[i as int] == BitwiseEntry(i)
  {
    assert i == 0x78 || i == 0x79;
  }

  lemma TableChunk061(i: bv8)
    requires 122 <= i < 124
    ensures Table()[i as int] == BitwiseEntry(i)
  {
    assert i == 0x7a || i == 0x7b;
  }

  lemma TableChunk062(i: bv8)
    requires 124 <= i < 126
    ensures Table()[i as int] == BitwiseEntry(i)
  {
    assert i == 0x7c || i == 0x7d;
  }

  lemma TableChunk063(i: bv8)
    requires 126 <= i < 128
    ensures Table()[i as int] == BitwiseEntry(i)
  {
    assert i == 0x7e || i == 0x7f;
  }

  lemma TableChunk064(i: bv8)
    requires 128 <= i < 130
    ensures Table()[i as int] == BitwiseEntry(i)
  {
    assert i == 0x80 || i == 0x81;
  }

  lemma TableChunk065(i: bv8)
    requires 130 <= i < 132
    ensures Table()[i as int] == BitwiseEntry(i)
  {
    assert i == 0x82 || i == 0x83;
  }

  lemma TableChunk066(i: bv8)
    requires 132 <= i < 134
    ensures Table()[i as int] == BitwiseEntry(i)
  {
    assert i == 0x84 || i == 0x85;
  }

  lemma TableChunk067(i: bv8)
    requires 134 <= i < 136
    ensures Table()[i as int] == BitwiseEntry(i)
  {
    assert i == 0x86 || i == 0x87;
  }

  lemma TableChunk068(i: bv8)
    requires 136 <= i < 138
    ensures Table()[i as int] == BitwiseEntry(i)
  {
    assert i == 0x88 || i == 0x89;
  }

  lemma TableChunk069(i: bv8)
    requires 138 <= i < 140
    ensures Table()[i as int] == BitwiseEntry(i)
  {
    assert i == 0x8a || i == 0x8b;
  }

  lemma TableChunk070(i: bv8)
    requires 140 <= i < 142
    ensures Table()[i as int] == BitwiseEntry(i)
  {
    assert i == 0x8c || i == 0x8d;
  }

  lemma TableChunk071(i: bv8)
    requires 142 <= i < 144
    ensures Table()[i as int] == BitwiseEntry(i)
  {
    assert i == 0x8e || i == 0x8f;
  }

  lemma TableChunk072(i: bv8)
    requires 144 <= i < 146
    ensures Table()[i as int] == BitwiseEntry(i)
  {
    assert i == 0x90 || i == 0x91;
  }

  lemma TableChunk073(i: bv8)
    requires 146 <= i < 148
    ensures Table()[i as int] == BitwiseEntry(i)
  {
    assert i == 0x92 || i == 0x93;
  }

  lemma TableChunk074(i: bv8)
    requires 148 <= i < 150
    ensures Table()[i as int] == BitwiseEntry(i)
  {
    assert i == 0x94 || i == 0x95;
  }

  lemma TableChunk075(i: bv8)
    requires 150 <= i < 152
    ensures Table()[i as int] == BitwiseEntry(i)
  {
    assert i == 0x96 || i == 0x97;
  }

  lemma TableChunk076(i: bv8)
    requires 152 <= i < 154
    ensures Table()[i as int] == BitwiseEntry(i)
  {
    assert i == 0x98 || i == 0x99;
  }

  lemma TableChunk077(i: bv8)
    requires 154 <= i < 156
    ensures Table()[i as int] == BitwiseEntry(i)
  {
    assert i == 0x9a || i == 0x9b;
  }

  lemma TableChunk078(i: bv8)
    requires 156 <= i < 158
    ensures Table()[i as int] == BitwiseEntry(i)
  {
    assert i == 0x9c || i == 0x9d;
  }

  lemma TableChunk079(i: bv8)
    requires 158 <= i < 160
    ensures Table()[i as int] == BitwiseEntry(i)
  {
    assert i == 0x9e || i == 0x9f;
  }

  lemma TableChunk080(i: bv8)
    requires 160 <= i < 162
    ensures Table()[i as int] == BitwiseEntry(i)
  {
    assert i == 0xa0 || i == 0xa1;
  }

  lemma TableChunk081(i: bv8)
    requires 162 <= i < 164
    ensures Table()[i as int] == BitwiseEntry(i)
  {
    assert i == 0xa2 || i == 0xa3;
  }

  lemma TableChunk082(i: bv8)
    requires 164 <= i < 166
    ensures Table()[i as int] == BitwiseEntry(i)
  {
    assert i == 0xa4 || i == 0xa5;
  }

  lemma TableChunk083(i: bv8)
    requires 166 <= i < 168
    ensures Table()[i as int] == BitwiseEntry(i)
  {
    assert i == 0xa6 || i == 0xa7;
  }

  lemma TableChunk084(i: bv8)
    requires 168 <= i < 170
    ensures Table()[i as int] == BitwiseEntry(i)
  {
    assert i == 0xa8 || i == 0xa9;
  }

  lemma TableChunk085(i: bv8)
    requires 170 <= i < 172
    ensures Table()[i as int] == BitwiseEntry(i)
  {
    assert i == 0xaa || i == 0xab;
  }

  lemma TableChunk086(i: bv8)
    requires 172 <= i < 174
    ensures Table()[i as int] == BitwiseEntry(i)
  {
    assert i == 0xac || i == 0xad;
  }

  lemma TableChunk087(i: bv8)
    requires 174 <= i < 176
    ensures Table()[i as int] == BitwiseEntry(i)
  {
    assert i == 0xae || i == 0xaf;
  }

  lemma TableChunk088(i: bv8)
    requires 176 <= i < 178
    ensures Table()[i as int] == BitwiseEntry(i)
  {
    assert i == 0xb0 || i == 0xb1;
  }

  lemma TableChunk089(i: bv8)
    requires 178 <= i < 180
    ensures Table()[i as int] == BitwiseEntry(i)
  {
    assert i == 0xb2 || i == 0xb3;
  }

  lemma TableChunk090(i: bv8)
    requires 180 <= i < 182
    ensures Table()[i as int] == BitwiseEntry(i)
  {
    assert i == 0xb4 || i == 0xb5;
  }

  lemma TableChunk091(i: bv8)
    requires 182 <= i < 184
    ensures Table()[i as int] == BitwiseEntry(i)
  {
    assert i == 0xb6 || i == 0xb7;
  }

  lemma TableChunk092(i: bv8)
    requires 184 <= i < 186
    ensures Table()[i as int] == BitwiseEntry(i)
  {
    assert i == 0xb8 || i == 0xb9;
  }

  lemma TableChunk093(i: bv8)
    requires 186 <= i < 188
    ensures Table()[i as int] == BitwiseEntry(i)
  {
    assert i == 0xba || i == 0xbb;
  }

  lemma TableChunk094(i: bv8)
    requires 188 <= i < 190
    ensures Table()[i as int] == BitwiseEntry(i)
  {
    assert i == 0xbc || i == 0xbd;
  }

  lemma TableChunk095(i: bv8)
    requires 190 <= i < 192
    ensures Table()[i as int] == BitwiseEntry(i)
  {
    assert i == 0xbe || i == 0xbf;
  }

  lemma TableChunk096(i: bv8)
    requires 192 <= i < 194
    ensures Table()[i as int] == BitwiseEntry(i)
  {
    assert i == 0xc0 || i == 0xc1;
  }

  lemma TableChunk097(i: bv8)
    requires 194 <= i < 196
    ensures Table()[i as int] == BitwiseEntry(i)
  {
    assert i == 0xc2 || i == 0xc3;
  }

  lemma TableChunk098(i: bv8)
    requires 196 <= i < 198
    ensures Table()[i as int] == BitwiseEntry(i)
  {
    assert i == 0xc4 || i == 0xc5;
  }

  lemma TableChunk099(i: bv8)
    requires 198 <= i < 200
    ensures Table()[i as int] == BitwiseEntry(i)
  {
    assert i == 0xc6 || i == 0xc7;
  }

  lemma TableChunk100(i: bv8)
    requires 200 <= i < 202
    ensures Table()[i as int] == BitwiseEntry(i)
  {
    assert i == 0xc8 || i == 0xc9;
  }

  lemma TableChunk101(i: bv8)
    requires 202 <= i < 204
    ensures Table()[i as int] == BitwiseEntry(i)
  {
    assert i == 0xca || i == 0xcb;
  }

  lemma TableChunk102(i: bv8)
    requires 204 <= i < 206
    ensures Table()[i as int] == BitwiseEntry(i)
  {
    assert i == 0xcc || i == 0xcd;
  }

  lemma TableChunk103(i: bv8)
    requires 206 <= i < 208
    ensures Table()[i as int] == BitwiseEntry(i)
  {
    assert i == 0xce || i == 0xcf;
  }

  lemma TableChunk104(i: bv8)
    requires 208 <= i < 210
    ensures Table()[i as int] == BitwiseEntry(i)
  {
    assert i == 0xd0 || i == 0xd1;
  }

  lemma TableChunk105(i: bv8)
    requires 210 <= i < 212
    ensures Table()[i as int] == BitwiseEntry(i)
  {
    assert i == 0xd2 || i == 0xd3;
  }

  lemma TableChunk106(i: bv8)
    requires 212 <= i < 214
    ensures Table()[i as int] == BitwiseEntry(i)
  {
    assert i == 0xd4 || i == 0xd5;
  }

  lemma TableChunk107(i: bv8)
    requires 214 <= i < 216
    ensures Table()[i as int] == BitwiseEntry(i)
  {
    assert i == 0xd6 || i == 0xd7;
  }

  lemma TableChunk108(i: bv8)
    requires 216 <= i < 218
    ensures Table()[i as int] == BitwiseEntry(i)
  {
    assert i == 0xd8 || i == 0xd9;
  }

  lemma TableChunk109(i: bv8)
    requires 218 <= i < 220
    ensures Table()[i as int] == BitwiseEntry(i)
  {
    assert i == 0xda || i == 0xdb;
  }

  lemma TableChunk110(i: bv8)
    requires 220 <= i < 222
    ensures Table()[i as int] == BitwiseEntry(i)
  {
    assert i == 0xdc || i == 0xdd;
  }

  lemma TableChunk111(i: bv8)
    requires 222 <= i < 224
    ensures Table()[i as int] == BitwiseEntry(i)
  {
    assert i == 0xde || i == 0xdf;
  }

  lemma TableChunk112(i: bv8)
    requires 224 <= i < 226
    ensures Table()[i as int] == BitwiseEntry(i)
  {
    assert i == 0xe0 || i == 0xe1;
  }

  lemma TableChunk113(i: bv8)
    requires 226 <= i < 228
    ensures Table()[i as int] == BitwiseEntry(i)
  {
    assert i == 0xe2 || i == 0xe3;
  }

  lemma TableChunk114(i: bv8)
    requires 228 <= i < 230
    ensures Table()[i as int] == BitwiseEntry(i)
  {
    assert i == 0xe4 || i == 0xe5;
  }

  lemma TableChunk115(i: bv8)
    requires 230 <= i < 232
    ensures Table()[i as int] == BitwiseEntry(i)
  {
    assert i == 0xe6 || i == 0xe7;
  }

  lemma TableChunk116(i: bv8)
    requires 232 <= i < 234
    ensures Table()[i as int] == BitwiseEntry(i)
  {
    assert i == 0xe8 || i == 0xe9;
  }

  lemma TableChunk117(i: bv8)
    requires 234 <= i < 236
    ensures Table()[i as int] == BitwiseEntry(i)
  {
    assert i == 0xea || i == 0xeb;
  }

  lemma TableChunk118(i: bv8)
    requires 236 <= i < 238
    ensures Table()[i as int] == BitwiseEntry(i)
  {
    assert i == 0xec || i == 0xed;
  }

  lemma TableChunk119(i: bv8)
    requires 238 <= i < 240
    ensures Table()[i as int] == BitwiseEntry(i)
  {
    assert i == 0xee || i == 0xef;
  }

  lemma TableChunk120(i: bv8)
    requires 240 <= i < 242
    ensures Table()[i as int] == BitwiseEntry(i)
  {
    assert i == 0xf0 || i == 0xf1;
  }

  lemma TableChunk121(i: bv8)
    requires 242 <= i < 244
    ensures Table()[i as int] == BitwiseEntry(i)
  {
    assert i == 0xf2 || i == 0xf3;
  }

  lemma TableChunk122(i: bv8)
    requires 244 <= i < 246
    ensures Table()[i as int] == BitwiseEntry(i)
  {
    assert i == 0xf4 || i == 0xf5;
  }

  lemma TableChunk123(i: bv8)
    requires 246 <= i < 248
    ensures Table()[i as int] == BitwiseEntry(i)
  {
    assert i == 0xf6 || i == 0xf7;
  }

  lemma TableChunk124(i: bv8)
    requires 248 <= i < 250
    ensures Table()[i as int] == BitwiseEntry(i)
  {
    assert i == 0xf8 || i == 0xf9;
  }

  lemma TableChunk125(i: bv8)
    requires 250 <= i < 252
    ensures Table()[i as int] == BitwiseEntry(i)
  {
    assert i == 0xfa || i == 0xfb;
  }

  lemma TableChunk126(i: bv8)
    requires 252 <= i < 254
    ensures Table()[i as int] == BitwiseEntry(i)
  {
    assert i == 0xfc || i == 0xfd;
  }

  lemma TableChunk127(i: bv8)
    requires 254 <= i
    ensures Table()[i as int] == BitwiseEntry(i)
  {
    assert i == 0xfe || i == 0xff;
  }

  /** Entries 0 to 31. */
  lemma TableEighth0(i: bv8)
    requires i < 32
    ensures Table()[i as int] == BitwiseEntry(i)
  {
    if i < 0x02 { TableChunk000(i); }
    else if i < 0x04 { TableChunk001(i); }
    else if i < 0x06 { TableChunk002(i); }
    else if i < 0x08 { TableChunk003(i); }
    else if i < 0x0a { TableChunk004(i); }
    else if i < 0x0c { TableChunk005(i); }
    else if i < 0x0e { TableChunk006(i); }
    else if i < 0x10 { TableChunk007(i); }
    else if i < 0x12 { TableChunk008(i); }
    else if i < 0x14 { TableChunk009(i); }
    else if i < 0x16 { TableChunk010(i); }
    else if i < 0x18 { TableChunk011(i); }
    else if i < 0x1a { TableChunk012(i); }
    else if i < 0x1c { TableChunk013(i); }
    else if i < 0x1e { TableChunk014(i); }
    else { TableChunk015(i); }
  }

  /** Entries 32 to 63. */
  lemma TableEighth1(i: bv8)
    requires 32 <= i < 64
    ensures Table()[i as int] == BitwiseEntry(i)
  {
    if i < 0x22 { TableChunk016(i); }
    else if i < 0x24 { TableChunk017(i); }
    else if i < 0x26 { TableChunk018(i); }
    else if i < 0x28 { TableChunk019(i); }
    else if i < 0x2a { TableChunk020(i); }
    else if i < 0x2c { TableChunk021(i); }
    else if i < 0x2e { TableChunk022(i); }
    else if i < 0x30 { TableChunk023(i); }
    else if i < 0x32 { TableChunk024(i); }
    else if i < 0x34 { TableChunk025(i); }
    else if i < 0x36 { TableChunk026(i); }
    else if i < 0x38 { TableChunk027(i); }
    else if i < 0x3a { TableChunk028(i); }
    else if i < 0x3c { TableChunk029(i); }
    else if i < 0x3e { TableChunk030(i); }
    else { TableChunk031(i); }
  }

  /** Entries 64 to 95. */
  lemma TableEighth2(i: bv8)
    requires 64 <= i < 96
    ensures Table()[i as int] == BitwiseEntry(i)
  {
    if i < 0x42 { TableChunk032(i); }
    else if i < 0x44 { TableChunk033(i); }
    else if i < 0x46 { TableChunk034(i); }
    else if i < 0x48 { TableChunk035(i); }
    else if i < 0x4a { TableChunk036(i); }
    else if i < 0x4c { TableChunk037(i); }
    else if i < 0x4e { TableChunk038(i); }
    else if i < 0x50 { TableChunk039(i); }
    else if i < 0x52 { TableChunk040(i); }
    else if i < 0x54 { TableChunk041(i); }
    else if i < 0x56 { TableChunk042(i); }
    else if i < 0x58 { TableChunk043(i); }
    else if i < 0x5a { TableChunk044(i); }
    else if i < 0x5c { TableChunk045(i); }
    else if i < 0x5e { TableChunk046(i); }
    else { TableChunk047(i); }
  }

  /** Entries 96 to 127. */
  lemma TableEighth3(i: bv8)
    requires 96 <= i < 128
    ensures Table()[i as int] == BitwiseEntry(i)
  {
    if i < 0x62 { TableChunk048(i); }
    else if i < 0x64 { TableChunk049(i); }
    else if i < 0x66 { TableChunk050(i); }
    else if i < 0x68 { TableChunk051(i); }
    else if i < 0x6a { TableChunk052(i); }
    else if i < 0x6c { TableChunk053(i); }
    else if i < 0x6e { TableChunk054(i); }
    else if i < 0x70 { TableChunk055(i); }
    else if i < 0x72 { TableChunk056(i); }
    else if i < 0x74 { TableChunk057(i); }
    else if i < 0x76 { TableChunk058(i); }
    else if i < 0x78 { TableChunk059(i); }
    else if i < 0x7a { TableChunk060(i); }
    else if i < 0x7c { TableChunk061(i); }
    else if i < 0x7e { TableChunk062(i); }
    else { TableChunk063(i); }
  }

  /** Entries 128 to 159. */
  lemma TableEighth4(i: bv8)
    requires 128 <= i < 160
    ensures Table()[i as int] == BitwiseEntry(i)
  {
    if i < 0x82 { TableChunk064(i); }
    else if i < 0x84 { TableChunk065(i); }
    else if i < 0x86 { TableChunk066(i); }
    else if i < 0x88 { TableChunk067(i); }
    else if i < 0x8a { TableChunk068(i); }
    else if i < 0x8c { TableChunk069(i); }
    else if i < 0x8e { TableChunk070(i); }
    else if i < 0x90 { TableChunk071(i); }
    else if i < 0x92 { TableChunk072(i); }
    else if i < 0x94 { TableChunk073(i); }
    else if i < 0x96 { TableChunk074(i); }
    else if i < 0x98 { TableChunk075(i); }
    else if i < 0x9a { TableChunk076(i); }
    else if i < 0x9c { TableChunk077(i); }
    else if i < 0x9e { TableChunk078(i); }
    else { TableChunk079(i); }
  }

  /** Entries 160 to 191. */
  lemma TableEighth5(i: bv8)
    requires 160 <= i < 192
    ensures Table()[i as int] == BitwiseEntry(i)
  {
    if i < 0xa2 { TableChunk080(i); }
    else if i < 0xa4 { TableChunk081(i); }
    else if i < 0xa6 { TableChunk082(i); }
    else if i < 0xa8 { TableChunk083(i); }
    else if i < 0xaa { TableChunk084(i); }
    else if i < 0xac { TableChunk085(i); }
    else if i < 0xae { TableChunk086(i); }
    else if i < 0xb0 { TableChunk087(i); }
    else if i < 0xb2 { TableChunk088(i); }
    else if i < 0xb4 { TableChunk089(i); }
    else if i < 0xb6 { TableChunk090(i); }
    else if i < 0xb8 { TableChunk091(i); }
    else if i < 0xba { TableChunk092(i); }
    else if i < 0xbc { TableChunk093(i); }
    else if i < 0xbe { TableChunk094(i); }
    else { TableChunk095(i); }
  }

  /** Entries 192 to 223. */
  lemma TableEighth6(i: bv8)
    requires 192 <= i < 224
    ensures Table()[i as int] == BitwiseEntry(i)
  {
    if i < 0xc2 { TableChunk096(i); }
    else if i < 0xc4 { TableChunk097(i); }
    else if i < 0xc6 { TableChunk098(i); }
    else if i < 0xc8 { TableChunk099(i); }
    else if i < 0xca { TableChunk100(i); }
    else if i < 0xcc { TableChunk101(i); }
    else if i < 0xce { TableChunk102(i); }
    else if i < 0xd0 { TableChunk103(i); }
    else if i < 0xd2 { TableChunk104(i); }
    else if i < 0xd4 { TableChunk105(i); }
    else if i < 0xd6 { TableChunk106(i); }
    else if i < 0xd8 { TableChunk107(i); }
    else if i < 0xda { TableChunk108(i); }
    else if i < 0xdc { TableChunk109(i); }
    else if i < 0xde { TableChunk110(i); }
    else { TableChunk111(i); }
  }

  /** Entries 224 to 255. */
  lemma TableEighth7(i: bv8)
    requires 224 <= i
    ensures Table()[i as int] == BitwiseEntry(i)
  {
    if i < 0xe2 { TableChunk112(i); }
    else if i < 0xe4 { TableChunk113(i); }
    else if i < 0xe6 { TableChunk114(i); }
    else if i < 0xe8 { TableChunk115(i); }
    else if i < 0xea { TableChunk116(i); }
    else if i < 0xec { TableChunk117(i); }
    else if i < 0xee { TableChunk118(i); }
    else if i < 0xf0 { TableChunk119(i); }
    else if i < 0xf2 { TableChunk120(i); }
    else if i < 0xf4 { TableChunk121(i); }
    else if i < 0xf6 { TableChunk122(i); }
    else if i < 0xf8 { TableChunk123(i); }
    else if i < 0xfa { TableChunk124(i); }
    else if i < 0xfc { TableChunk125(i); }
    else if i < 0xfe { TableChunk126(i); }
    else { TableChunk127(i); }
  }

  /** Every entry of the literal table is the bitwise MSB-first CRC-8 (polynomial 0x4D) of its index. */
  lemma TableIsBitwise(i: bv8)
    ensures Table()[i as int] == BitwiseEntry(i)
  {
    if i < 32 { TableEighth0(i); }
    else if i < 64 { TableEighth1(i); }
    else if i < 96 { TableEighth2(i); }
    else if i < 128 { TableEighth3(i); }
    else if i < 160 { TableEighth4(i); }
    else if i < 192 { TableEighth5(i); }
    else if i < 224 { TableEighth6(i); }
    else { TableEighth7(i); }
  }

  /** The bitwise map is one-to-one (it is linear over GF(2) with a trivial kernel). */
  lemma BitwiseInjective(a: bv8, b: bv8)
    ensures BitwiseEntry(a) == BitwiseEntry(b) ==> a == b
  {
  }

  /** No two indices share a table entry, so the 256 entries are a permutation of 0..255. */
  lemma TableInjective(a: bv8, b: bv8)
    requires a != b
    ensures Table()[a as int] != Table()[b as int]
  {
    TableIsBitwise(a);
    TableIsBitwise(b);
    BitwiseInjective(a, b);
  }

  /** One step of the fold: the table entry selected by the running checksum and the next byte. */
  function Step(crc: bv8, b: bv8): bv8
  {
    Table()[(crc ^ b) as int]
  }

  /** Appending one byte performs exactly one table step. */
  lemma Crc8Snoc(s: seq<bv8>, b: bv8)
    ensures Crc8(s + [b]) == Step(Crc8(s), b)
  {
    assert (s + [b])[..|s|] == s;
  }

  /** A step from the same checksum with two different bytes yields two different checksums. */
  lemma StepSeparatesBytes(c: bv8, b1: bv8, b2: bv8)
    requires b1 != b2
    ensures Step(c, b1) != Step(c, b2)
  {
    XorKeepsDifference(c, b1, b2);
    TableInjective(c ^ b1, c ^ b2);
  }

  /** A step with the same byte keeps two different checksums different. */
  lemma StepSeparatesChecksums(c1: bv8, c2: bv8, b: bv8)
    requires c1 != c2
    ensures Step(c1, b) != Step(c2, b)
  {
    XorKeepsDifferenceLeft(c1, c2, b);
    TableInjective(c1 ^ b, c2 ^ b);
  }

  lemma XorKeepsDifference(c: bv8, b1: bv8, b2: bv8)
    requires b1 != b2
    ensures c ^ b1 != c ^ b2
  {
  }

  lemma XorKeepsDifferenceLeft(c1: bv8, c2: bv8, b: bv8)
    requires c1 != c2
    ensures c1 ^ b != c2 ^ b
  {
  }

  /** A differing checksum of a prefix survives one more common byte. */
  lemma DivergenceStep(s: seq<bv8>, t: seq<bv8>, n: nat)
    requires n < |s| && n < |t| && s[n] == t[n]
    requires Crc8(s[..n]) != Crc8(t[..n])
    ensures Crc8(s[..n + 1]) != Crc8(t[..n + 1])
  {
    Crc8Prefix(s, n);
    Crc8Prefix(t, n);
    StepSeparatesChecksums(Crc8(s[..n]), Crc8(t[..n]), s[n]);
  }

  /** The checksum of a one-longer prefix is one step further. */
  lemma Crc8Prefix(s: seq<bv8>, n: nat)
    requires n < |s|
    ensures Crc8(s[..n + 1]) == Step(Crc8(s[..n]), s[n])
  {
    assert s[..n + 1][..n] == s[..n];
  }

  /** Two equal-length messages whose prefixes of length `n` already have different
      checksums, and which agree from `n` on, keep different checksums. */
  lemma {:induction false} DivergencePersists(s: seq<bv8>, t: seq<bv8>, n: nat)
    requires |s| == |t| && n <= |s|
    requires Crc8(s[..n]) != Crc8(t[..n])
    requires forall j :: n <= j < |s| ==> s[j] == t[j]
    ensures Crc8(s) != Crc8(t)
    decreases |s| - n
  {
    if n == |s| {
      assert s[..n] == s && t[..n] == t;
    } else {
      DivergenceStep(s, t, n);
      DivergencePersists(s, t, n + 1);
    }
  }

  /** Changing any single byte of a message changes its checksum: every
      single-byte (hence every single-bit) corruption of the covered bytes is detected. */
  lemma SingleByteChangeDetected(s: seq<bv8>, t: seq<bv8>, k: nat)
    requires |s| == |t| && k < |s| && s[k] != t[k]
    requires forall j :: 0 <= j < |s| && j != k ==> s[j] == t[j]
    ensures Crc8(s) != Crc8(t)
  {
    EqualPrefixes(s, t, k);
    Crc8Prefix(s, k);
    Crc8Prefix(t, k);
    StepSeparatesBytes(Crc8(s[..k]), s[k], t[k]);
    DivergencePersists(s, t, k + 1);
  }

  lemma EqualPrefixes(s: seq<bv8>, t: seq<bv8>, k: nat)
    requires k <= |s| && k <= |t|
    requires forall j :: 0 <= j < k ==> s[j] == t[j]
    ensures s[..k] == t[..k]
  {
  }
}
