/** Python's integer `%`, which floors: the remainder takes the sign of the
    divisor. Dafny's `%` is Euclidean (never negative), so the two agree only
    for a positive divisor; a zero divisor raises ZeroDivisionError. */
module PyMath {
  import opened Errors

  function FloorMod(a: int, n: int): (r: Result<int>)
    ensures n == 0 <==> r == Err(ZeroDivision)
    ensures n > 0 ==> r.Ok? && 0 <= r.value < n
    ensures n < 0 ==> r.Ok? && n < r.value <= 0
    ensures r.Ok? ==> (a - r.value) % Abs(n) == 0
  {
    if n == 0 then Err(ZeroDivision)
    else if n > 0 then
      RemainderOfPositive(a, n);
      Ok(a % n)
    else
      // floor division by n < 0 mirrors floor division of -a by -n
      RemainderOfNegative(a, n);
      Ok(-((-a) % (-n)))
  }

  lemma RemainderOfPositive(a: int, n: int)
    requires n > 0
    ensures 0 <= a % n < n && (a - a % n) % Abs(n) == 0
  {
    var q := a / n;
    assert a - a % n == 0 + q * n;
    MultipleShift(0, q, n);
    assert (0 + q * n) % n == 0;
  }

  lemma RemainderOfNegative(a: int, n: int)
    requires n < 0
    ensures var m := (-a) % (-n);
            n < -m <= 0 && (a - -m) % Abs(n) == 0
  {
    SumWithModOfNegation(a, -n);
  }

  function Abs(n: int): nat {
    if n < 0 then -n else n
  }

  /** For a positive divisor the Python result is Dafny's. */
  lemma PositiveDivisorAgrees(a: int, n: int)
    requires n > 0
    ensures FloorMod(a, n) == Ok(a % n)
  {
  }

  /** Reducing before adding changes nothing: rotating by `w1` and then by
      `w2` lands where rotating once by `w1 + w2` does. */
  lemma {:induction false} AddAfterMod(a: int, b: int, n: int)
    requires n != 0
    ensures FloorMod(FloorMod(a, n).value + b, n) == FloorMod(a + b, n)
  {
    if n > 0 {
      AddAfterModEuclid(a, b, n);
    } else {
      // for n < 0 both sides are the negated Euclidean remainders of -a - b
      AddAfterModEuclid(-a, -b, -n);
      assert -(FloorMod(a, n).value + b) == (-a) % (-n) + -b;
      assert -(a + b) == -a + -b;
    }
  }

  lemma AddAfterModEuclid(a: int, b: int, n: int)
    requires n > 0
    ensures (a % n + b) % n == (a + b) % n
  {
    var q := a / n;
    assert a == q * n + a % n;
    MultipleShift(a % n + b, q, n);
    assert a % n + b + q * n == a + b;
  }

  /** `a + ((-a) % k)` is a multiple of `k`. */
  lemma SumWithModOfNegation(a: int, k: int)
    requires k > 0
    ensures (a + (-a) % k) % k == 0
  {
    var q := (-a) / k;
    assert -a == q * k + (-a) % k;
    assert a + (-a) % k == (-q) * k;
    MultipleShift(0, -q, k);
  }

  /** Adding a multiple of `n` does not change the Euclidean remainder. */
  lemma MultipleShift(x: int, q: int, n: int)
    requires n > 0
    ensures (x + q * n) % n == x % n
  {
    var y := x + q * n;
    assert y == (x / n + q) * n + x % n;
    UniqueRemainder(y, x / n + q, x % n, n);
  }

  /** Division with remainder in [0, n) is unique. */
  lemma UniqueRemainder(y: int, q: int, r: int, n: int)
    requires n > 0 && 0 <= r < n && y == q * n + r
    ensures y % n == r
  {
    var q' := y / n;
    var r' := y % n;
    assert y == q' * n + r';
    var d := q - q';
    assert d * n == q * n - q' * n;
    assert d * n == r' - r;
    if d >= 1 {
      AtLeastOneMultiple(d, n);
    } else if d <= -1 {
      AtLeastOneMultiple(-d, n);
    }
  }

  lemma AtLeastOneMultiple(d: int, n: int)
    requires d >= 1 && n > 0
    ensures d * n >= n
  {
    assert d * n == (d - 1) * n + n;
    assert (d - 1) * n >= 0;
  }
}
