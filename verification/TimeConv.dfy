/** Conversions to timespec: include/msglib/detail/TimeConv.h. */
module TimeConv {

  const NANO: int := 1000000000

  predicate Int64(x: int) {
    -0x8000_0000_0000_0000 <= x < 0x8000_0000_0000_0000
  }

  datatype Timespec = Timespec(sec: int, nsec: int)

  /** Division as C++ does it. */
  function TruncDiv(a: int, b: int): int
    requires b > 0
  {
    if a >= 0 then a / b else -((-a) / b)
  }

  function Gcd(a: nat, b: nat): (g: nat)
    requires a > 0
    ensures 0 < g <= a && a % g == 0 && b % g == 0
    decreases b
  {
    if b == 0 then a
    else
      var g := Gcd(b, a % b);
      CommonDivisor(a, b, g);
      g
  }

  lemma Distribute(x: int, y: int, k: int)
    ensures (x + y) * k == x * k + y * k
  {
  }

  lemma Associate(x: int, y: int, k: int)
    ensures x * (y * k) == (x * y) * k
  {
  }

  lemma CommonDivisor(a: nat, b: nat, g: nat)
    requires 0 < b && 0 < g <= b && b % g == 0 && (a % b) % g == 0
    ensures a % g == 0 && (a > 0 ==> g <= a)
  {
    var q, k, r := a / b, b / g, (a % b) / g;
    assert a == q * b + a % b;
    assert b == k * g && a % b == r * g;
    Associate(q, k, g);
    Distribute(q * k, r, g);
    MultipleMod(q * k + r, g);
  }

  lemma {:induction false} ScalingNat(x: nat, k: nat)
    requires k > 0
    ensures x * k >= x && (x >= 1 ==> x * k >= k)
  {
    if x == 0 {
    } else {
      ScalingNat(x - 1, k);
      assert x * k == (x - 1) * k + k;
    }
  }

  lemma Scaling(x: int, k: int)
    requires k > 0
    ensures x >= 0 ==> x * k >= 0
    ensures x >= 1 ==> x * k >= x && x * k >= k
    ensures x <= -1 ==> x * k <= -k
  {
    if x >= 0 {
      ScalingNat(x, k);
    } else {
      ScalingNat(-x, k);
      assert (-x) * k == -(x * k);
    }
  }

  lemma DivUnique(x: int, b: int, q: int)
    requires b > 0 && q * b <= x < q * b + b
    ensures x / b == q
  {
    var d := x / b - q;
    assert d * b == (x / b) * b - q * b;
    assert -b < d * b < b;
    Scaling(d, b);
  }

  lemma MultipleMod(x: int, g: int)
    requires g > 0
    ensures (x * g) % g == 0 && (x * g) / g == x
  {
    DivUnique(x * g, g, x);
  }

  /** The product that duration_cast to nanoseconds forms before it divides. */
  function CastProduct(rest: int, k: int): int
    requires 0 < k
  {
    rest * (NANO / Gcd(k, NANO))
  }

  /** A duration of d ticks, k ticks a second. */
  function Chrono2Timespec(d: int, k: int): Timespec
    requires 0 < k
  {
    var secs := TruncDiv(d, k);
    var rest := d - secs * k;
    Timespec(secs, TruncDiv(CastProduct(rest, k), k / Gcd(k, NANO)))
  }

  lemma Monotone(x: int, y: int, k: int)
    requires x <= y && 0 <= k
    ensures x * k <= y * k
  {
    if k == 0 {
    } else {
      Scaling(y - x, k);
      assert (y - x) * k == y * k - x * k;
    }
  }

  /** A common factor cancels. */
  lemma DivCancel(y: int, z: int, g: int)
    requires z > 0 && g > 0 && y >= 0
    ensures (y * g) / (z * g) == y / z
  {
    var q := y / z;
    assert q * z <= y < q * z + z;
    Monotone(q * z, y, g);
    Monotone(y + 1, q * z + z, g);
    Distribute(y, 1, g);
    Distribute(q * z, z, g);
    Associate(q, z, g);
    Scaling(z, g);
    DivUnique(y * g, z * g, q);
  }

  lemma TruncCancel(y: int, z: int, g: int)
    requires z > 0 && g > 0
    ensures z * g > 0 && TruncDiv(y * g, z * g) == TruncDiv(y, z)
  {
    if y >= 0 {
      DivCancel(y, z, g);
    } else {
      assert -(y * g) == (-y) * g;
      DivCancel(-y, z, g);
    }
  }

  /** The nanoseconds are those of the rest, truncated once. */
  lemma NanosOfRest(rest: int, k: int)
    requires 0 < k
    ensures k / Gcd(k, NANO) > 0
    ensures TruncDiv(CastProduct(rest, k), k / Gcd(k, NANO)) == TruncDiv(rest * NANO, k)
  {
    var g := Gcd(k, NANO);
    var num, den := NANO / g, k / g;
    assert num * g == NANO && den * g == k;
    Associate(rest, num, g);
    TruncCancel(rest * num, den, g);
  }

  lemma ShiftDiv(x: int, y: int, k: int)
    requires k > 0
    ensures (y * k + x) / k == y + x / k
  {
    var q := x / k;
    assert q * k <= x < q * k + k;
    assert (y + q) * k == y * k + q * k;
    DivUnique(y * k + x, k, y + q);
  }

  lemma Rearranged(s: int, r: int, k: int)
    ensures (s * k + r) * NANO == (s * NANO) * k + r * NANO
  {
  }

  /** The nanoseconds of less than a second. */
  lemma RestBelow(r: int, k: int)
    requires 0 <= r < k
    ensures 0 <= (r * NANO) / k < NANO
  {
    var q := (r * NANO) / k;
    assert q * k <= r * NANO < q * k + k;
    assert r * NANO < NANO * k;
    assert (q - NANO) * k == q * k - NANO * k;
    Scaling(q - NANO, k);
    Scaling(r, NANO);
  }

  lemma SplitNonNegative(d: int, k: int)
    requires d >= 0 && k > 0
    ensures (d * NANO) / k == (d / k) * NANO + ((d - (d / k) * k) * NANO) / k
    ensures 0 <= ((d - (d / k) * k) * NANO) / k < NANO
  {
    var s, r := d / k, d - (d / k) * k;
    Rearranged(s, r, k);
    ShiftDiv(r * NANO, s * NANO, k);
    RestBelow(r, k);
  }

  lemma Mirror(d: int, k: int)
    requires 0 < k
    ensures TruncDiv(-d, k) == -TruncDiv(d, k)
    ensures (-d) - TruncDiv(-d, k) * k == -(d - TruncDiv(d, k) * k)
  {
  }

  /** Negative durations convert to the negated timespec. */
  lemma MirrorTimespec(d: int, k: int)
    requires 0 < k
    ensures Chrono2Timespec(-d, k).sec == -Chrono2Timespec(d, k).sec
    ensures Chrono2Timespec(-d, k).nsec == -Chrono2Timespec(d, k).nsec
  {
    var rest := d - TruncDiv(d, k) * k;
    Mirror(d, k);
    NanosOfRest(rest, k);
    NanosOfRest(-rest, k);
    assert (-rest) * NANO == -(rest * NANO);
    Mirror(rest * NANO, k);
  }

  lemma Parts(d: int, k: int)
    requires 0 < k
    ensures Chrono2Timespec(d, k).sec == TruncDiv(d, k)
    ensures Chrono2Timespec(d, k).nsec == TruncDiv((d - TruncDiv(d, k) * k) * NANO, k)
  {
    NanosOfRest(d - TruncDiv(d, k) * k, k);
  }

  lemma TruncNonNegative(x: int, k: int)
    requires 0 <= x && 0 < k
    ensures TruncDiv(x, k) == x / k >= 0 && x - (x / k) * k >= 0
  {
  }

  lemma NonNegativeExact(d: int, k: int)
    requires 0 <= d && 0 < k
    ensures var ts := Chrono2Timespec(d, k);
            ts.sec * NANO + ts.nsec == TruncDiv(d * NANO, k) && 0 <= ts.sec && 0 <= ts.nsec < NANO
  {
    hide Chrono2Timespec, TruncDiv;
    TruncNonNegative(d, k);
    var rest := d - (d / k) * k;
    Parts(d, k);
    SplitNonNegative(d, k);
    Scaling(d, NANO);
    Scaling(rest, NANO);
    TruncNonNegative(d * NANO, k);
    TruncNonNegative(rest * NANO, k);
  }

  /** The timespec is the duration truncated toward zero to whole nanoseconds; its parts have the duration's sign. */
  lemma ConversionExact(d: int, k: int)
    requires 0 < k
    ensures var ts := Chrono2Timespec(d, k);
            && ts.sec * NANO + ts.nsec == TruncDiv(d * NANO, k)
            && -NANO < ts.nsec < NANO
            && (d >= 0 ==> ts.sec >= 0 && ts.nsec >= 0)
            && (d <= 0 ==> ts.sec <= 0 && ts.nsec <= 0)
  {
    if d >= 0 {
      NonNegativeExact(d, k);
      if d == 0 {
        MirrorTimespec(d, k);
      }
    } else {
      NonNegativeExact(-d, k);
      MirrorTimespec(d, k);
      assert (-d) * NANO == -(d * NANO);
      Mirror(d * NANO, k);
    }
  }

  lemma ProductBound(r: int, num: int)
    requires -NANO < r < NANO && 0 <= num <= NANO
    ensures -(NANO * NANO) <= r * num <= NANO * NANO
  {
    Monotone(r, NANO, num);
    Monotone(-NANO, r, num);
  }

  lemma QuotientBounds(d: int, k: int)
    requires 0 < k && 0 <= d
    ensures 0 <= d / k <= d && 0 <= (d / k) * k <= d < (d / k) * k + k
  {
    Scaling(d / k, k);
  }

  /** Seconds and rest are of the duration's sign and no larger, and the rest is less than a second. */
  lemma DivisionBounds(d: int, k: int)
    requires 0 < k
    ensures var secs := TruncDiv(d, k);
            && (d >= 0 ==> 0 <= secs <= d && 0 <= secs * k <= d)
            && (d <= 0 ==> d <= secs <= 0 && d <= secs * k <= 0)
            && -k < d - secs * k < k
  {
    if d >= 0 {
      QuotientBounds(d, k);
    } else {
      QuotientBounds(-d, k);
      Mirror(d, k);
    }
  }

  lemma CastBound(rest: int, k: int)
    requires 0 < k && -NANO < rest < NANO
    ensures Int64(CastProduct(rest, k))
  {
    NumBound(k);
    ProductBound(rest, NANO / Gcd(k, NANO));
  }

  /** Every intermediate result of the conversion of a 64-bit count fits in 64 bits. */
  lemma NoOverflow(d: int, k: int)
    requires Int64(d) && 0 < k <= NANO
    ensures var secs := TruncDiv(d, k);
            Int64(secs) && Int64(secs * k) && Int64(d - secs * k) && Int64(CastProduct(d - secs * k, k))
  {
    hide TruncDiv, CastProduct;
    DivisionBounds(d, k);
    CastBound(d - TruncDiv(d, k) * k, k);
  }

  lemma NumBound(k: int)
    requires 0 < k
    ensures 0 <= NANO / Gcd(k, NANO) <= NANO
  {
    var g := Gcd(k, NANO);
    var num := NANO / g;
    assert num * g == NANO;
    Scaling(num, g);
    if num <= -1 {
      assert false;
    }
  }

  lemma WholeNanos(rest: int, k: int)
    requires 0 < k <= NANO && NANO % k == 0
    ensures NANO / k > 0 && rest * NANO == (rest * (NANO / k)) * k
  {
    var m := NANO / k;
    assert m * k == NANO;
    assert rest * (m * k) == (rest * m) * k;
  }

  /** Ticks a whole number of nanoseconds long survive the conversion: seconds, milli-, micro-, nanoseconds. */
  lemma ConvertsBack(d: int, k: int)
    requires Int64(d) && 0 < k <= NANO && NANO % k == 0
    ensures var ts := Chrono2Timespec(d, k);
            ts.sec * k + TruncDiv(ts.nsec, NANO / k) == d
  {
    hide Chrono2Timespec, TruncDiv;
    var rest := d - TruncDiv(d, k) * k;
    Parts(d, k);
    WholeNanos(rest, k);
    TruncMultiple(rest * (NANO / k), k);
    TruncMultiple(rest, NANO / k);
  }

  lemma TruncMultiple(x: int, b: int)
    requires b > 0
    ensures TruncDiv(x * b, b) == x
  {
    if x >= 0 {
      assert x * b >= 0;
      MultipleMod(x, b);
    } else {
      assert -(x * b) == (-x) * b;
      assert x * b < 0;
      MultipleMod(-x, b);
    }
  }

  /** The timespec passed by reference. */
  class TimespecRef {
    var sec: int
    var nsec: int

    constructor ()
      ensures sec == 0 && nsec == 0
    {
      sec, nsec := 0, 0;
    }
  }

  /**
   * Refuses only a microsecond field of a second or more; a refused conversion writes nothing. With 64-bit fields the
   * product overflows from 9223372036854776 microseconds below zero on.
   */
  method Timeval2Timespec(tvSec: int, tvUsec: int, ts: TimespecRef) returns (ok: bool)
    modifies ts
    ensures ok <==> tvUsec < 1000000
    ensures ok ==> ts.sec * NANO + ts.nsec == (tvSec * 1000000 + tvUsec) * 1000 && ts.sec == tvSec
    ensures !ok ==> ts.sec == old(ts.sec) && ts.nsec == old(ts.nsec)
    ensures ok ==> (0 <= ts.nsec < NANO <==> 0 <= tvUsec)
    ensures ok ==> (Int64(ts.nsec) <==> -9223372036854776 < tvUsec)
  {
    if tvUsec < 1000000 {
      ts.sec, ts.nsec := tvSec, tvUsec * 1000;
      return true;
    }
    return false;
  }
}
