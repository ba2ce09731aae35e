/** Modification times: milliseconds split into seconds and nanoseconds for the store and put together again. */
module Timestamps {
  import opened Doubles

  function Seconds(mtime: real): int {
    Rounded(mtime / 1000.0).Floor
  }

  function InMilliseconds(seconds: int): real {
    Rounded(seconds as real * 1000.0)
  }

  /** The rest of the time after whole seconds. */
  function Rest(mtime: real, seconds: int): real {
    Rounded(mtime - InMilliseconds(seconds))
  }

  /** A rest in nanoseconds, rounded half up. */
  function InNanos(rest: real): int {
    (Rounded(rest * 1000000.0) + 0.5).Floor
  }

  function Nanos(mtime: real): int {
    InNanos(Rest(mtime, Seconds(mtime)))
  }

  function FromNanos(nanos: int): real {
    Rounded(nanos as real / 1000000.0)
  }

  function Milliseconds(seconds: int, nanos: int): real {
    Rounded(InMilliseconds(seconds) + FromNanos(nanos))
  }

  /** What becomes of a time that is stored and loaded. */
  function Reloaded(mtime: real): real {
    Milliseconds(Seconds(mtime), Nanos(mtime))
  }

  predicate Survives(mtime: real) {
    Reloaded(mtime) == mtime
  }

  /** What a load can return for a second and a nanosecond within it. */
  ghost predicate Returned(mtime: real) {
    exists s: int, n: int :: 0 <= n < 1_000_000_000 && mtime == Milliseconds(s, n)
  }

  // ------------------------------------------------------------------ Numbers of the right size

  lemma PowerOf30()
    ensures Pow2(10) == 1024.0 && Pow2(30) == 1073741824.0 && Pow2(33) == 8589934592.0
  {
    assert Pow2(15) == 32768.0;
    PowersAdd(15, 15);
    PowersAdd(30, 3);
  }

  lemma PowersOf43And53()
    ensures Pow2(43) == 8796093022208.0 && Pow2(52) == 4503599627370496.0 && Pow2(53) == 9007199254740992.0
  {
    PowerOf30();
    assert Pow2(13) == 8192.0 && Pow2(22) == 4194304.0;
    PowersAdd(30, 13);
    PowersAdd(30, 22);
    Doubling(52);
  }

  lemma SmallPowers()
    ensures Pow2(-10) == 1.0 / 1024.0 && Pow2(-19) == 1.0 / 524288.0 && Pow2(-20) == 1.0 / 1048576.0
    ensures Pow2(-23) == 1.0 / 8388608.0
  {
  }

  lemma Sizes()
    ensures Pow2(10) == 1024.0 && Pow2(30) == 1073741824.0 && Pow2(33) == 8589934592.0
    ensures Pow2(43) == 8796093022208.0 && Pow2(52) == 4503599627370496.0 && Pow2(53) == 9007199254740992.0
    ensures Pow2(-10) == 1.0 / 1024.0 && Pow2(-19) == 1.0 / 524288.0 && Pow2(-20) == 1.0 / 1048576.0
    ensures Pow2(-23) == 1.0 / 8388608.0
  {
    PowerOf30();
    PowersOf43And53();
    SmallPowers();
  }

  lemma NinePowers(e: int)
    ensures Pow2(e + 9) == 512.0 * Pow2(e)
  {
    assert Pow2(e + 3) == 8.0 * Pow2(e) by {
      Doubling(e);
      Doubling(e + 1);
      Doubling(e + 2);
    }
    assert Pow2(e + 6) == 8.0 * Pow2(e + 3) by {
      Doubling(e + 3);
      Doubling(e + 4);
      Doubling(e + 5);
    }
    Doubling(e + 6);
    Doubling(e + 7);
    Doubling(e + 8);
  }

  lemma SmallError(y: real)
    requires -1024.0 < y < 1024.0
    ensures -0.00000001 <= Rounded(y) - y <= 0.00000001
  {
    Sizes();
    PowersGrow(-43, -33);
    assert Pow2(-33) == Pow2(-23) / 1024.0;
    RoundingError(y, 10);
  }

  lemma WholeExact(i: int)
    requires Abs(i as real) < Pow2(53)
    ensures Rounded(i as real) == i as real
  {
    WholeNumbers(i);
  }

  // ------------------------------------------------------------------ Splitting

  lemma BelowNext(mtime: real, s: int)
    requires Abs(mtime) < Pow2(53) && s == Seconds(mtime)
    ensures mtime < (s + 1) as real * 1000.0
  {
    IntegerBounds(mtime / 1000.0, s + 1);
  }

  /** A time that the quotient rounds up to a whole second is that second, or next to nothing. */
  lemma NotBefore(mtime: real, s: int)
    requires Double(mtime) && Abs(mtime) < Pow2(53) && s == Seconds(mtime)
    ensures s as real * 1000.0 <= mtime || (s == 0 && -0.0000001 < mtime < 0.0)
  {
    var x := mtime / 1000.0;
    if mtime < s as real * 1000.0 {
      IntegerBounds(x, s);
      RoundedNear(x);
      RoundedNear(mtime);
      assert (s * 1000) as real == s as real * 1000.0;
      IntegerOnGrid(mtime, s * 1000);
      if Abs((s * 1000) as real - mtime) < Unit(mtime) {
        CloseMultiples((s * 1000) as real, mtime, Unit(mtime));
        assert false;
      }
      SecondOfNothing(mtime, x, s);
    }
  }

  lemma SecondOfNothing(mtime: real, x: real, s: int)
    requires Abs(mtime) < Pow2(53) && x == mtime / 1000.0
    requires 0.0 < s as real - x <= Unit(x) / 2.0 && Unit(mtime) <= s as real * 1000.0 - mtime
    ensures s == 0 && -0.0000001 < mtime < 0.0
  {
    if Exponent(x) > MIN_EXPONENT {
      PowersGrow(53, 1023);
      CoarseUnit(mtime, x);
      assert false;
    }
    LeastUnit(x);
  }

  lemma CoarseUnit(mtime: real, x: real)
    requires Abs(mtime) < Pow2(1023) && x == mtime / 1000.0 && Exponent(x) > MIN_EXPONENT
    ensures Unit(mtime) >= 512.0 * Unit(x)
  {
    NineBinadesUp(mtime, x, Exponent(x));
    NinePowers(Exponent(x) - 52);
  }

  lemma NineBinadesUp(mtime: real, x: real, e: int)
    requires Abs(mtime) < Pow2(1023) && x == mtime / 1000.0 && e == Exponent(x) > MIN_EXPONENT
    ensures Unit(mtime) >= Pow2(e - 52 + 9)
  {
    NinePowers(e);
    PowersOrdered(e + 9, 1023);
    AtLeast(mtime, e + 9);
  }

  lemma LeastUnit(x: real)
    requires Exponent(x) == MIN_EXPONENT
    ensures Abs(x) < 0.0000000001 && Unit(x) < 0.0000000001
  {
    PowersGrow(MIN_EXPONENT + 1, -43);
    PowersGrow(MIN_EXPONENT - 52, -43);
    PowerBelow43();
  }

  lemma PowerBelow43()
    ensures Pow2(-43) < 0.0000000001
  {
    Sizes();
    assert Pow2(-33) == Pow2(-23) / 1024.0;
    assert Pow2(-43) == Pow2(-33) / 1024.0;
  }

  /** The rest of a time after its seconds, short of what rounding adds. */
  predicate RestOf(mtime: real, s: int, rest: real) {
    && -0.0000001 < mtime - s as real * 1000.0 < 1000.0
    && (0.0 <= mtime - s as real * 1000.0 || s == 0)
    && -0.00000001 <= rest - (mtime - s as real * 1000.0) <= 0.00000001
  }

  lemma Splitting(mtime: real, s: int)
    requires Double(mtime) && Abs(mtime) < Pow2(52) && s == Seconds(mtime)
    ensures InMilliseconds(s) == s as real * 1000.0 && RestOf(mtime, s, Rest(mtime, s))
  {
    BelowNext(mtime, s);
    NotBefore(mtime, s);
    WholeSeconds(mtime, s);
    SmallError(mtime - s as real * 1000.0);
    RestKnown(mtime, s, s as real * 1000.0);
  }

  lemma WholeSeconds(mtime: real, s: int)
    requires Abs(mtime) < Pow2(52) && -1.0 < mtime - s as real * 1000.0 < 1000.0
    ensures InMilliseconds(s) == s as real * 1000.0
  {
    Sizes();
    assert (s * 1000) as real == s as real * 1000.0;
    WholeExact(s * 1000);
  }

  lemma RestKnown(mtime: real, s: int, whole: real)
    requires InMilliseconds(s) == whole
    ensures Rest(mtime, s) == Rounded(mtime - whole)
  {
  }

  lemma FromFraction(p: real, n: int)
    requires -1000000.0 < p < 1001000000.0
    ensures -0.0000001 <= Rounded(p) - p <= 0.0000001
    ensures -0.4999 <= p - n as real <= 0.4999 ==> (Rounded(p) + 0.5).Floor == n
  {
    Sizes();
    RoundingError(p, 30);
  }

  lemma HalfUp(p: real)
    ensures -0.5 <= (p + 0.5).Floor as real - p <= 0.5
  {
  }

  lemma NanosError(rest: real)
    requires -1.0 < rest < 1001.0
    ensures -0.5000001 <= InNanos(rest) as real - rest * 1000000.0 <= 0.5000001
  {
    var p := rest * 1000000.0;
    FromFraction(p, 0);
    HalfUp(Rounded(p));
  }

  lemma NearestNano(rest: real, n: int)
    requires -1.0 < rest < 1001.0 && -0.4999 <= rest * 1000000.0 - n as real <= 0.4999
    ensures InNanos(rest) == n
  {
    FromFraction(rest * 1000000.0, n);
  }

  // ------------------------------------------------------------------ What comes back

  /** A time within 0.487 nanoseconds of a whole number of them comes back as that number does. */
  lemma ComesBackAs(s: int, n: int, mtime: real)
    requires 0 <= n < 1_000_000_000 && Double(mtime) && Abs(mtime) < Pow2(52)
    requires -0.000000487 <= mtime - (s as real * 1000.0 + n as real / 1000000.0) <= 0.000000487
    ensures Reloaded(mtime) == Milliseconds(s, n)
  {
    var q := Seconds(mtime);
    Splitting(mtime, q);
    WhichSecond(s, n, q, mtime, Rest(mtime, q));
    if q == s {
      NearestNano(Rest(mtime, q), n);
    } else {
      NearestNano(Rest(mtime, q), 1_000_000_000);
      Sizes();
      Carry(q);
    }
  }

  lemma WhichSecond(s: int, n: int, q: int, mtime: real, rest: real)
    requires 0 <= n < 1_000_000_000 && RestOf(mtime, q, rest)
    requires -0.000000487 <= mtime - (s as real * 1000.0 + n as real / 1000000.0) <= 0.000000487
    ensures q == s || (q == s - 1 && n == 0)
    ensures q == s ==> -0.4999 <= rest * 1000000.0 - n as real <= 0.4999
    ensures q == s - 1 ==> -0.4999 <= rest * 1000000.0 - 1000000000.0 <= 0.4999
  {
    var d := mtime - q as real * 1000.0;
    var nano := n as real / 1000000.0;
    assert 0.0 <= nano <= 999.999999;
    assert (s - q) as real * 1000.0 == d - nano - (mtime - (s as real * 1000.0 + nano));
    assert -1000.0000001 < (s - q) as real * 1000.0 - 0.0 < 1000.000001;
    assert n != 0 ==> nano >= 0.000001;
  }

  lemma WholeNanos(n: int, d: int)
    requires 0 <= d <= 1000 && n == d * 1_000_000
    ensures FromNanos(n) == d as real
  {
    Sizes();
    WholeExact(d);
    assert n as real / 1000000.0 == d as real;
  }

  /** Seconds and whole milliseconds add up without rounding. */
  lemma WholeMilliseconds(ms: int, s: int, d: int, n: int)
    requires Abs(ms as real) < Pow2(52) + 4000.0 && 0 <= d <= 1000 && ms == s * 1000 + d && n == d * 1_000_000
    ensures Double(ms as real) && Milliseconds(s, n) == ms as real
  {
    Sizes();
    WholeNanos(n, d);
    assert (s * 1000) as real == s as real * 1000.0;
    assert ms as real == (s * 1000) as real + d as real;
    WholeExact(s * 1000);
    WholeExact(ms);
  }

  /** A full billion of nanoseconds is the next second. */
  lemma Carry(s: int)
    requires Abs(s as real * 1000.0) < Pow2(52) + 2000.0
    ensures Milliseconds(s, 1_000_000_000) == Milliseconds(s + 1, 0)
  {
    var ms := (s + 1) * 1000;
    assert ms as real == s as real * 1000.0 + 1000.0;
    WholeMilliseconds(ms, s, 1000, 1_000_000_000);
    WholeMilliseconds(ms, s + 1, 0, 0);
  }

  lemma NanosInSecond(mtime: real, s: int)
    requires Double(mtime) && Abs(mtime) < Pow2(52) && s == Seconds(mtime)
    ensures 0 <= InNanos(Rest(mtime, s)) <= 1_000_000_000
  {
    Splitting(mtime, s);
    if s as real * 1000.0 <= mtime {
      RestKnown(mtime, s, s as real * 1000.0);
      RestBounds(mtime - s as real * 1000.0);
    } else {
      NearestNano(Rest(mtime, s), 0);
    }
  }

  lemma RestBounds(d: real)
    requires 0.0 <= d <= 1000.0
    ensures 0 <= InNanos(Rounded(d)) <= 1_000_000_000
  {
    Sizes();
    IntegerBounds(d, 0);
    IntegerBounds(d, 1000);
    IntegerBounds(Rounded(d) * 1000000.0, 0);
    IntegerBounds(Rounded(d) * 1000000.0, 1_000_000_000);
  }

  lemma ReloadedBy(mtime: real, s: int, n: int)
    requires s == Seconds(mtime) && n == InNanos(Rest(mtime, s))
    ensures Reloaded(mtime) == Milliseconds(s, n)
  {
  }

  lemma SurvivorIsReturned(mtime: real)
    requires Double(mtime) && Abs(mtime) < Pow2(52) && Survives(mtime)
    ensures Returned(mtime)
  {
    var s := Seconds(mtime);
    var n := InNanos(Rest(mtime, s));
    ReloadedBy(mtime, s, n);
    NanosInSecond(mtime, s);
    Splitting(mtime, s);
    ReturnedBy(mtime, s, n);
  }

  lemma ReturnedBy(mtime: real, s: int, n: int)
    requires mtime == Milliseconds(s, n) && 0 <= n <= 1_000_000_000 && Abs(s as real * 1000.0) < Pow2(52) + 2000.0
    ensures Returned(mtime)
  {
    if n == 1_000_000_000 { Carry(s); }
  }

  /** ... and what a load can return comes back, near 1970. */
  lemma ReturnedSurvives(mtime: real)
    requires Double(mtime) && Abs(mtime) < Pow2(33) && Returned(mtime)
    ensures Survives(mtime)
  {
    var s: int, n: int :| 0 <= n < 1_000_000_000 && mtime == Milliseconds(s, n);
    Sizes();
    NearSecond(mtime, s, n, FromNanos(n));
    ComesBackAs(s, n, mtime);
  }

  lemma NearSecond(mtime: real, s: int, n: int, fraction: real)
    requires 0 <= n < 1_000_000_000 && fraction == FromNanos(n) && Abs(mtime) < Pow2(33)
    requires mtime == Rounded(InMilliseconds(s) + fraction)
    ensures -0.000000487 <= mtime - (s as real * 1000.0 + n as real / 1000000.0) <= 0.000000487
  {
    SmallError(n as real / 1000000.0);
    NearWhole(mtime, s, fraction);
    SumError(mtime, s as real * 1000.0 + fraction);
  }

  /** A sum below the bound has exact seconds. */
  lemma NearWhole(mtime: real, s: int, fraction: real)
    requires Abs(mtime) < Pow2(33) && mtime == Rounded(InMilliseconds(s) + fraction) && -1.0 < fraction < 1001.0
    ensures InMilliseconds(s) == s as real * 1000.0
  {
    SumSmall(mtime, InMilliseconds(s) + fraction);
    Sizes();
    WholeSmall(s, s as real * 1000.0);
    assert (s * 1000) as real == s as real * 1000.0;
    WholeExact(s * 1000);
  }

  lemma SumSmall(mtime: real, sum: real)
    requires Abs(mtime) < Pow2(33) && mtime == Rounded(sum)
    ensures Abs(sum) < Pow2(33)
  {
    if Abs(sum) >= Pow2(33) { StaysAbove(sum, 33); }
  }

  lemma WholeSmall(s: int, whole: real)
    requires Abs(InMilliseconds(s)) < Pow2(43) && whole == s as real * 1000.0
    ensures Abs(whole) < Pow2(43)
  {
    if Abs(whole) >= Pow2(43) { StaysAbove(whole, 43); }
  }

  lemma SumError(mtime: real, sum: real)
    requires Abs(mtime) < Pow2(33) && mtime == Rounded(sum)
    ensures -0.00000047684 <= mtime - sum <= 0.00000047684
  {
    Sizes();
    SumSmall(mtime, sum);
    RoundingError(sum, 33);
  }

  // ------------------------------------------------------------------ Times that always come back

  /** Every whole number of milliseconds comes back. */
  lemma WholeMillisecondsSurvive(ms: int)
    requires Abs(ms as real) < Pow2(52)
    ensures Survives(ms as real)
  {
    var s, d := ms / 1000, ms % 1000;
    WholeMilliseconds(ms, s, d, d * 1_000_000);
    ComesBackAs(s, d * 1_000_000, ms as real);
  }

  lemma ReloadError(rest: real, n: int)
    requires -1.0 < rest < 1001.0 && -0.5000001 <= n as real - rest * 1000000.0 <= 0.5000001
    ensures -0.0000006 <= FromNanos(n) - rest <= 0.0000006
  {
    SmallError(n as real / 1000000.0);
  }

  lemma AboveBinadeSurvives(mtime: real)
    requires Double(mtime) && Pow2(33) < Abs(mtime) < Pow2(52)
    ensures Survives(mtime)
  {
    var s := Seconds(mtime);
    Splitting(mtime, s);
    var rest := Rest(mtime, s);
    var n := InNanos(rest);
    NanosError(rest);
    ReloadError(rest, n);
    ReloadedBy(mtime, s, n);
    SumRoundsBack(mtime, InMilliseconds(s) + FromNanos(n));
  }

  lemma SumRoundsBack(mtime: real, z: real)
    requires Double(mtime) && Pow2(33) < Abs(mtime) && -0.0000007 <= z - mtime <= 0.0000007
    ensures Rounded(z) == mtime
  {
    Sizes();
    RoundsBack(mtime, z, 33);
  }

  // ------------------------------------------------------------------ Far from 1970

  lemma TwentySevenPowers(e: int)
    ensures Pow2(e + 27) == 134217728.0 * Pow2(e)
  {
    NinePowers(e);
    NinePowers(e + 9);
    NinePowers(e + 18);
  }

  /** A double of the binade `e`, whose numbers are apart by the unit `u` or less. */
  predicate InBinade(mtime: real, e: int, u: real) {
    52 <= e < 1022 && u == Pow2(e - 52) && Double(mtime) && Pow2(e) <= Abs(mtime) < Pow2(e + 1)
  }

  lemma Binade(mtime: real) returns (e: int)
    requires Double(mtime) && Pow2(52) <= Abs(mtime) < Pow2(1022)
    ensures InBinade(mtime, e, Unit(mtime)) && e == Exponent(mtime)
  {
    e := Exponent(mtime);
    AtLeast(mtime, 52);
    Between(mtime, 1022);
  }

  lemma UnitsOf(e: int, u: real)
    requires 52 <= e && u == Pow2(e - 52)
    ensures u >= 1.0 && Pow2(e - 42) == 1024.0 * u && Pow2(e) >= 1024.0 * u && Pow2(e + 2) == 2.0 * Pow2(e + 1)
    ensures Pow2(e + 1) == 2.0 * Pow2(e)
  {
    PowersGrow(0, e - 52);
    NinePowers(e - 52);
    Doubling(e - 43);
    PowersGrow(e - 42, e);
    Doubling(e);
    Doubling(e + 1);
  }

  lemma FarQuotient(mtime: real, e: int, u: real, x: real)
    requires InBinade(mtime, e, u) && u == Unit(mtime) && x == mtime / 1000.0
    ensures Unit(x) <= u / 512.0
  {
    Sizes();
    PowersGrow(52, e);
    AtLeast(x, 10);
    PowersGrow(e + 1, 1023);
    CoarseUnit(mtime, x);
  }

  lemma FarSeconds(mtime: real, e: int, u: real, s: int)
    requires InBinade(mtime, e, u) && u == Unit(mtime) && s == Seconds(mtime)
    ensures -1000.0 - u < s as real * 1000.0 - mtime < 1000.0 + u
  {
    var x := mtime / 1000.0;
    FarQuotient(mtime, e, u, x);
    RoundedNear(x);
    FloorNear(mtime, Rounded(x), s, u);
  }

  lemma FloorNear(mtime: real, q: real, s: int, u: real)
    requires s == q.Floor && Abs(q - mtime / 1000.0) <= u / 1024.0 && u > 0.0
    ensures -1000.0 - u < s as real * 1000.0 - mtime < 1000.0 + u
  {
  }

  lemma FarWhole(mtime: real, e: int, u: real, s: int)
    requires InBinade(mtime, e, u) && -1000.0 - u < s as real * 1000.0 - mtime < 1000.0 + u
    ensures -1000.0 - 2.0 * u <= InMilliseconds(s) - mtime <= 1000.0 + 2.0 * u
  {
    UnitsOf(e, u);
    RoundingError(s as real * 1000.0, e + 2);
    Doubling(e - 52);
  }

  lemma FarError(y: real, e: int, u: real)
    requires 52 <= e < 1022 && u == Pow2(e - 52) && Abs(y) < 1024.0 * u
    ensures -u / 100000000.0 <= Rounded(y) - y <= u / 100000000.0
  {
    UnitsOf(e, u);
    RoundingError(y, e - 42);
    TwentySevenPowers(e - 79);
    PowersGrow(e - 95, e - 79);
  }

  lemma FarNanosError(p: real, e: int, u: real)
    requires 52 <= e < 1022 && u == Pow2(e - 52) && Abs(p) < 1073741824.0 * u
    ensures -u <= (Rounded(p) + 0.5).Floor as real - p <= u
  {
    UnitsOf(e, u);
    NinePowers(e - 42);
    NinePowers(e - 33);
    Doubling(e - 24);
    Doubling(e - 23);
    RoundingError(p, e - 22);
    NinePowers(e - 61);
    PowersGrow(e - 75, e - 61);
    HalfUp(Rounded(p));
  }

  lemma FarNanos(d: real, rest: real, n: int, e: int, u: real)
    requires 52 <= e < 1022 && u == Pow2(e - 52) && -1002.0 * u <= d <= 1002.0 * u && n == InNanos(rest)
    requires -u / 100000000.0 <= rest - d <= u / 100000000.0
    ensures -1.1 * u <= n as real - d * 1000000.0 <= 1.1 * u
  {
    FarNanosError(rest * 1000000.0, e, u);
  }

  lemma FarFraction(d: real, n: int, e: int, u: real)
    requires 52 <= e < 1022 && u == Pow2(e - 52) && -1002.0 * u <= d <= 1002.0 * u
    requires -1.1 * u <= n as real - d * 1000000.0 <= 1.1 * u
    ensures -u / 100000.0 <= FromNanos(n) - d <= u / 100000.0
  {
    FarError(n as real / 1000000.0, e, u);
  }

  lemma FarSurvives(mtime: real)
    requires Double(mtime) && Pow2(52) <= Abs(mtime) < Pow2(1022)
    ensures Survives(mtime)
  {
    var e := Binade(mtime);
    var u, s := Unit(mtime), Seconds(mtime);
    FarSeconds(mtime, e, u, s);
    FarWhole(mtime, e, u, s);
    UnitsOf(e, u);
    var d := mtime - InMilliseconds(s);
    FarError(d, e, u);
    var n := InNanos(Rest(mtime, s));
    FarNanos(d, Rest(mtime, s), n, e, u);
    FarFraction(d, n, e, u);
    ReloadedBy(mtime, s, n);
    FarSum(mtime, e, u, InMilliseconds(s) + FromNanos(n));
  }

  lemma FarSum(mtime: real, e: int, u: real, z: real)
    requires InBinade(mtime, e, u) && -u / 100000.0 <= z - mtime <= u / 100000.0
    ensures Rounded(z) == mtime
  {
    Doubling(e - 1);
    Doubling(e - 53);
    RoundsBack(mtime, z, e - 1);
  }

  // ------------------------------------------------------------------ Exactly when

  /** Every time 2^33 milliseconds (99.4 days) or more from 1970 comes back, whatever its fraction, as long
      as no product overflows. */
  lemma ModernTimesSurvive(mtime: real)
    requires Double(mtime) && Pow2(33) <= Abs(mtime) < Pow2(1022)
    ensures Survives(mtime)
  {
    if Abs(mtime) == Pow2(33) {
      BinadeSurvives(mtime);
    } else if Abs(mtime) < Pow2(52) {
      AboveBinadeSurvives(mtime);
    } else {
      FarSurvives(mtime);
    }
  }

  lemma BinadeSurvives(mtime: real)
    requires Abs(mtime) == Pow2(33)
    ensures Survives(mtime)
  {
    PowerOf30();
    PowersOf43And53();
    WholeMillisecondsSurvive(if mtime < 0.0 then -8589934592 else 8589934592);
  }

  /** A time comes back exactly when it is far from 1970 or is itself what some load returns. */
  lemma ComesBackIff(mtime: real)
    requires Double(mtime) && Abs(mtime) < Pow2(1022)
    ensures Survives(mtime) <==> Pow2(33) <= Abs(mtime) || Returned(mtime)
  {
    if Pow2(33) <= Abs(mtime) {
      ModernTimesSurvive(mtime);
    } else {
      PowersGrow(33, 52);
      if Survives(mtime) { SurvivorIsReturned(mtime); }
      if Returned(mtime) { ReturnedSurvives(mtime); }
    }
  }

  /** Within 140,000 years of 1970 what a load can return is all that comes back. */
  lemma SurvivesIffReturned(mtime: real)
    requires Double(mtime) && Abs(mtime) < Pow2(52)
    ensures Survives(mtime) <==> Returned(mtime)
  {
    if Survives(mtime) { SurvivorIsReturned(mtime); }
    if Returned(mtime) {
      PowersGrow(52, 1022);
      if Pow2(33) <= Abs(mtime) { ModernTimesSurvive(mtime); } else { ReturnedSurvives(mtime); }
    }
  }

  /** So one save settles a time for good. */
  lemma ReloadedTwice(mtime: real)
    requires Double(mtime) && Abs(mtime) < Pow2(1022)
    ensures Reloaded(Reloaded(mtime)) == Reloaded(mtime)
  {
    if Pow2(33) <= Abs(mtime) {
      ModernTimesSurvive(mtime);
    } else {
      ReloadedNear(mtime, Reloaded(mtime));
    }
  }

  lemma ReloadedNear(mtime: real, reloaded: real)
    requires Double(mtime) && Abs(mtime) < Pow2(33) && reloaded == Reloaded(mtime)
    ensures Survives(reloaded)
  {
    var s := Seconds(mtime);
    var n := InNanos(Rest(mtime, s));
    PowersGrow(33, 52);
    ReloadedBy(mtime, s, n);
    NanosInSecond(mtime, s);
    Splitting(mtime, s);
    Settled(s, n, reloaded);
  }

  lemma Settled(s: int, n: int, mtime: real)
    requires InMilliseconds(s) == s as real * 1000.0 && Abs(s as real * 1000.0) < Pow2(33) + 2000.0
    requires 0 <= n <= 1_000_000_000 && mtime == Milliseconds(s, n)
    ensures Survives(mtime)
  {
    var sum := InMilliseconds(s) + FromNanos(n);
    Sizes();
    SmallError(n as real / 1000000.0);
    RoundingError(sum, 43);
    RoundedIsDouble(sum);
    ReturnedBy(mtime, s, n);
    SurvivesIffReturned(mtime);
  }

  /** A fraction of less than 0.487 nanoseconds around a whole millisecond is lost. */
  lemma FractionsAreLost(ms: int, mtime: real)
    requires Double(mtime) && Abs(mtime) < Pow2(52) && Abs(ms as real) < Pow2(52)
    requires mtime != ms as real && -0.000000487 <= mtime - ms as real <= 0.000000487
    ensures Reloaded(mtime) == ms as real && !Survives(mtime)
  {
    var s, d := ms / 1000, ms % 1000;
    WholeMilliseconds(ms, s, d, d * 1_000_000);
    ComesBackAs(s, d * 1_000_000, mtime);
  }

  lemma PowerBelow26()
    ensures Pow2(27) == 134217728.0 && 0.0 < Pow2(-26) < 0.0000001
  {
    Sizes();
    assert Pow2(-26) == Pow2(-23) / 8.0;
    TwentySevenPowers(0);
  }

  /** There are such times: a day after 1970 and 2^-26 milliseconds comes back as the day. */
  lemma DayIsNotKept()
    ensures var mtime := 86400000.0 + Pow2(-26); Double(mtime) && Reloaded(mtime) == 86400000.0
  {
    var mtime := 86400000.0 + Pow2(-26);
    PowerBelow26();
    Between(mtime, 27);
    DayOnGrid(mtime);
    CoarserMultiple(mtime, Exponent(mtime) - 52, -26);
    MultiplesAreDoubles(mtime);
    PowersOf43And53();
    FractionsAreLost(86400000, mtime);
  }

  lemma DayOnGrid(mtime: real)
    requires mtime == 86400000.0 + Pow2(-26)
    ensures Multiple(mtime, Pow2(-26))
  {
    TimesOne(86400000);
    assert Multiple(86400000.0, Pow2(0));
    CoarserMultiple(86400000.0, -26, 0);
    assert -Pow2(-26) == Times(-1, Pow2(-26));
    Difference(86400000.0, -Pow2(-26), Pow2(-26));
  }
}
