/** Small shared vocabulary: an optional value, bytes, real-number helpers and the
    bounded history buffers (Python `deque(maxlen=N)`) used for scans and poses. */
module Common {

  datatype Option<+T> = None | Some(value: T)

  /** A byte as Python indexes it out of `bytes`: an integer in `0..255`. */
  type Byte = x: int | 0 <= x < 256

  /** The bit pattern of a byte, built by counting up from zero. */
  function CountUpBits(x: Byte): (v: bv8)
    ensures v as int == x
  {
    if x == 0 then 0 else
      var w := CountUpBits(x - 1);
      assert w < 255;
      w + 1
  }

  /** A byte's bit pattern reads back as the same number. */
  lemma ByteBitsRoundTrip(x: Byte)
    ensures (x as bv8) as int == x
  {
    var v := CountUpBits(x);
    assert x as bv8 == (v as int) as bv8;
  }

  /** Different bytes have different bit patterns. */
  lemma BitsInjective(x: Byte, y: Byte)
    requires x != y
    ensures x as bv8 != y as bv8
  {
    ByteBitsRoundTrip(x);
    ByteBitsRoundTrip(y);
  }

  /** Different bit patterns read as different numbers. */
  lemma BitsValueInjective(a: bv8, b: bv8)
    requires a != b
    ensures a as int != b as int
  {
    assert (a as int) as bv8 == a && (b as int) as bv8 == b;
  }

  function AbsReal(x: real): (r: real)
    ensures 0.0 <= r && (r == x || r == -x)
  {
    if x < 0.0 then -x else x
  }

  /** `max(lo, min(hi, x))`, the clamp written out in the source. */
  function ClampReal(x: real, lo: real, hi: real): (r: real)
    requires lo <= hi
    ensures lo <= r <= hi
    ensures lo <= x <= hi ==> r == x
    ensures x < lo ==> r == lo
    ensures hi < x ==> r == hi
  {
    if hi < x then hi else if x < lo then lo else x
  }

  /** Python `int(x)` on a float: truncation toward zero. */
  function Truncate(x: real): (r: int)
    ensures 0.0 <= x ==> 0 <= r && r as real <= x < r as real + 1.0
    ensures x < 0.0 ==> r <= 0 && r as real - 1.0 < x <= r as real
  {
    if 0.0 <= x then x.Floor else -((-x).Floor)
  }

  /** `deque(maxlen=cap).append(x)`: keeps the `cap` most recent items, dropping the oldest. */
  function BoundedAppend<T>(history: seq<T>, x: T, cap: nat): (r: seq<T>)
    requires 0 < cap && |history| <= cap
    ensures |r| == if |history| < cap then |history| + 1 else cap
    ensures r == (history + [x])[|history| + 1 - |r|..]
  {
    if |history| < cap then history + [x] else history[1..] + [x]
  }

  /** The newest item is always the one just appended, and nothing but the oldest is lost. */
  lemma BoundedAppendKeepsNewest<T>(history: seq<T>, x: T, cap: nat)
    requires 0 < cap && |history| <= cap
    ensures var r := BoundedAppend(history, x, cap);
      r[|r| - 1] == x &&
      (|history| == cap ==> r[..|r| - 1] == history[1..]) &&
      (|history| < cap ==> r[..|r| - 1] == history)
  {
  }
}
