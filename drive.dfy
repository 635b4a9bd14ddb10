/** Differential-drive normalisation shared by both motor controllers: when either
    wheel command exceeds unit magnitude, both are divided by the larger magnitude. */
module Drive {
  import opened Common

  /** `max(abs(left), abs(right))`. */
  function Magnitude(left: real, right: real): (m: real)
    ensures 0.0 <= m && AbsReal(left) <= m && AbsReal(right) <= m
    ensures m == AbsReal(left) || m == AbsReal(right)
  {
    var l, r := AbsReal(left), AbsReal(right);
    if l < r then r else l
  }

  /** With a positive factor, a product has the sign of the other operand. */
  lemma ProductSign(q: real, m: real)
    requires 0.0 < m
    ensures 0.0 <= q * m ==> 0.0 <= q
    ensures q * m <= 0.0 ==> q <= 0.0
  {
  }

  /** `x / m` keeps `|x| <= m` within one in magnitude. */
  lemma DivideWithinUnit(x: real, m: real)
    requires 0.0 < m && AbsReal(x) <= m
    ensures -1.0 <= x / m <= 1.0
    ensures AbsReal(x / m) == AbsReal(x) / m
  {
    var q := x / m;
    assert q * m == x;
    assert (q - 1.0) * m == x - m;
    assert (q + 1.0) * m == x + m;
    ProductSign(q - 1.0, m);
    ProductSign(q + 1.0, m);
    ProductSign(q, m);
    if x < 0.0 {
      assert -x / m == -q;
    }
  }

  /** Normalisation: both wheels end in `[-1, 1]`; commands already within range are kept;
      otherwise the ratio between the wheels is kept and the faster wheel runs at full
      magnitude. */
  function Normalise(left: real, right: real): (w: (real, real))
    ensures -1.0 <= w.0 <= 1.0 && -1.0 <= w.1 <= 1.0
    ensures Magnitude(left, right) <= 1.0 ==> w == (left, right)
    ensures Magnitude(left, right) > 1.0 ==> Magnitude(w.0, w.1) == 1.0
  {
    var m := Magnitude(left, right);
    if m > 1.0 then
      var w := (left / m, right / m);
      Scaled(left, right, m, w);
      w
    else
      (left, right)
  }

  lemma Scaled(left: real, right: real, m: real, w: (real, real))
    requires m == Magnitude(left, right) && m > 1.0 && w == (left / m, right / m)
    ensures -1.0 <= w.0 <= 1.0 && -1.0 <= w.1 <= 1.0
    ensures Magnitude(w.0, w.1) == 1.0
  {
    DivideWithinUnit(left, m);
    DivideWithinUnit(right, m);
    var a, b := left / m, right / m;
    assert AbsReal(a) == AbsReal(left) / m && AbsReal(b) == AbsReal(right) / m;
    assert m / m == 1.0;
    if AbsReal(left) == m {
      assert AbsReal(a) == 1.0;
    } else {
      assert AbsReal(b) == 1.0;
    }
  }

  /** Normalisation keeps the ratio between the wheels: `left' * right == right' * left`. */
  lemma NormaliseKeepsRatio(left: real, right: real, w: (real, real))
    requires w == Normalise(left, right)
    ensures w.0 * right == w.1 * left
  {
    var m := Magnitude(left, right);
    if m > 1.0 {
      ScaledRatio(left, right, m, w);
    } else {
      Cross(left, right, 1.0, left, right);
    }
  }

  lemma ScaledRatio(left: real, right: real, m: real, w: (real, real))
    requires m != 0.0 && w == (left / m, right / m)
    ensures w.0 * right == w.1 * left
  {
    Cross(w.0, w.1, m, left, right);
  }

  lemma Cross(a: real, b: real, m: real, left: real, right: real)
    requires left == a * m && right == b * m
    ensures a * right == b * left
  {
  }

  /** The scaling in `Normalise` is a single positive factor applied to both wheels, so
      each wheel keeps its sign. */
  lemma NormaliseKeepsSigns(left: real, right: real)
    ensures var w := Normalise(left, right);
      (0.0 < left <==> 0.0 < w.0) && (left < 0.0 <==> w.0 < 0.0) &&
      (0.0 < right <==> 0.0 < w.1) && (right < 0.0 <==> w.1 < 0.0)
  {
    var m := Magnitude(left, right);
    if m > 1.0 {
      DivideBack(left, m);
      DivideBack(right, m);
      ProductSign(left / m, m);
      ProductSign(right / m, m);
    }
  }

  lemma DivideBack(x: real, m: real)
    requires m != 0.0
    ensures x / m * m == x
  {
  }
}
