/**
 Numbers as the runtime has them: every operation rounds its exact result to a number of 53 significant
 bits (binary64 of IEEE 754, section 3.6; roundTiesToEven, section 4.3.1), short of overflow.
 */
module Doubles {

  const MIN_EXPONENT := -1022
  const MAX_EXPONENT := 1023

  function Exp2(n: nat): (p: nat)
    ensures p > 0
  {
    if n == 0 then 1 else 2 * Exp2(n - 1)
  }

  function Pow2(e: int): (p: real)
    ensures p > 0.0
    decreases if e < 0 then -e else e
  {
    if e == 0 then 1.0 else if e > 0 then 2.0 * Pow2(e - 1) else Pow2(e + 1) / 2.0
  }

  function Abs(x: real): real {
    if x < 0.0 then -x else x
  }

  /** The exponent of the binade that `x` is in, not below `e`. */
  function ExponentFrom(x: real, e: int): (r: int)
    requires MIN_EXPONENT <= e <= MAX_EXPONENT
    ensures e <= r <= MAX_EXPONENT
    ensures r < MAX_EXPONENT ==> Abs(x) < Pow2(r + 1)
    ensures r > e ==> Pow2(r) <= Abs(x)
    decreases MAX_EXPONENT - e, x
  {
    if e == MAX_EXPONENT || Abs(x) < Pow2(e + 1) then e else ExponentFrom(x, e + 1)
  }

  function Exponent(x: real): int {
    ExponentFrom(x, MIN_EXPONENT)
  }

  /** The distance of neighbouring doubles around `x`. */
  function Unit(x: real): (u: real)
    ensures u > 0.0
  {
    Pow2(Exponent(x) - 52)
  }

  /** The whole units in a magnitude, counted off one by one, and what is left. */
  function Count(x: real, u: real): int
    requires x >= 0.0 && u > 0.0
    decreases (x / u).Floor
  {
    if x < u then 0
    else
      Fewer(x, u);
      1 + Count(x - u, u)
  }

  function Left(x: real, u: real): (rest: real)
    requires x >= 0.0 && u > 0.0
    ensures 0.0 <= rest < u
    decreases (x / u).Floor
  {
    if x < u then x
    else
      Fewer(x, u);
      Left(x - u, u)
  }

  lemma Fewer(x: real, u: real)
    requires 0.0 < u <= x
    ensures 0 <= ((x - u) / u).Floor < (x / u).Floor
  {
    var y := x / u;
    OneLess(x, y, u);
    assert y >= 1.0 by { AtLeastOne(y, u); }
  }

  lemma OneLess(x: real, y: real, u: real)
    requires u > 0.0 && x == y * u
    ensures (x - u) / u == y - 1.0
  {
    var q := (x - u) / u;
    assert q * u == x - u;
    assert (y - 1.0) * u == x - u;
    SameFactor(q, y - 1.0, u);
  }

  lemma SameFactor(a: real, b: real, u: real)
    requires u > 0.0 && a * u == b * u
    ensures a == b
  {
    assert (a - b) * u == a * u - b * u;
  }

  lemma AtLeastOne(y: real, u: real)
    requires u > 0.0 && y * u >= u
    ensures y >= 1.0
  {
  }

  /** The nearest multiple of the unit, in a tie the even one. */
  function RoundedTo(x: real, u: real): real
    requires x >= 0.0 && u > 0.0
  {
    var rest := Left(x, u);
    if rest < u / 2.0 || (rest == u / 2.0 && Count(x, u) % 2 == 0) then x - rest else x - rest + u
  }

  function Rounded(x: real): real {
    if x < 0.0 then -RoundedTo(-x, Unit(x)) else RoundedTo(x, Unit(x))
  }

  predicate Double(x: real) {
    Rounded(x) == x
  }

  /** `k` times `u`. */
  function Times(k: int, u: real): real
    decreases if k < 0 then -k else k
  {
    if k == 0 then 0.0 else if k > 0 then Times(k - 1, u) + u else Times(k + 1, u) - u
  }

  ghost predicate Multiple(x: real, u: real) {
    exists k: int :: x == Times(k, u)
  }

  // ------------------------------------------------------------------ Powers of two

  lemma Doubling(e: int)
    ensures Pow2(e + 1) == 2.0 * Pow2(e)
  {
  }

  lemma {:induction false} PowersAdd(a: nat, b: nat)
    ensures Pow2(a + b) == Pow2(a) * Pow2(b)
    decreases b
  {
    if b > 0 { PowersAdd(a, b - 1); }
  }

  lemma {:induction false} PowersGrow(a: int, b: int)
    requires a <= b
    ensures Pow2(a) <= Pow2(b) && Pow2(b) == Times(Exp2(b - a), Pow2(a))
    decreases b - a
  {
    if a < b {
      PowersGrow(a, b - 1);
      Doubling(b - 1);
      TimesAdd(Exp2(b - 1 - a), Exp2(b - 1 - a), Pow2(a));
    }
  }

  lemma PowersOrdered(a: int, b: int)
    requires Pow2(a) < Pow2(b)
    ensures a < b
  {
    if b <= a { PowersGrow(b, a); }
  }

  lemma CoarserMultiple(x: real, a: int, b: int)
    requires a <= b && Multiple(x, Pow2(b))
    ensures Multiple(x, Pow2(a))
  {
    PowersGrow(a, b);
    var k: int :| x == Times(k, Pow2(b));
    Regroup(k, Exp2(b - a), Pow2(a));
    assert x == Times(k * Exp2(b - a), Pow2(a));
  }

  lemma {:induction false} TimesAdd(j: int, k: int, u: real)
    ensures Times(j + k, u) == Times(j, u) + Times(k, u)
    decreases if k < 0 then -k else k
  {
    if k > 0 {
      TimesAdd(j, k - 1, u);
    } else if k < 0 {
      TimesAdd(j, k + 1, u);
    }
  }

  lemma {:induction false} Regroup(k: int, n: int, u: real)
    ensures Times(k, Times(n, u)) == Times(k * n, u)
    decreases if k < 0 then -k else k
  {
    if k > 0 {
      Regroup(k - 1, n, u);
      OneMore(k - 1, n, u);
    } else if k < 0 {
      Regroup(k + 1, n, u);
      OneMore(k, n, u);
    }
  }

  lemma OneMore(k: int, n: int, u: real)
    ensures Times((k + 1) * n, u) == Times(k * n, u) + Times(n, u)
  {
    assert (k + 1) * n == k * n + n;
    TimesAdd(k * n, n, u);
  }

  lemma {:induction false} TimesOne(k: int)
    ensures Times(k, 1.0) == k as real
    decreases if k < 0 then -k else k
  {
    if k > 0 {
      TimesOne(k - 1);
    } else if k < 0 {
      TimesOne(k + 1);
    }
  }

  lemma Difference(x: real, y: real, u: real)
    requires Multiple(x, u) && Multiple(y, u)
    ensures Multiple(x - y, u)
  {
    var j: int :| x == Times(j, u);
    var k: int :| y == Times(k, u);
    TimesAdd(j - k, k, u);
    assert x - y == Times(j - k, u);
  }

  /** Multiples closer than the unit are equal. */
  lemma CloseMultiples(x: real, y: real, u: real)
    requires u > 0.0 && Multiple(x, u) && Multiple(y, u) && Abs(x - y) < u
    ensures x == y
  {
    Difference(x, y, u);
    var k: int :| x - y == Times(k, u);
    if k != 0 { NonzeroTimes(k, u); }
  }

  lemma {:induction false} NonzeroTimes(k: int, u: real)
    requires u > 0.0 && k != 0
    ensures if k > 0 then Times(k, u) >= u else Times(k, u) <= -u
    decreases if k < 0 then -k else k
  {
    if k > 1 {
      NonzeroTimes(k - 1, u);
    } else if k < -1 {
      NonzeroTimes(k + 1, u);
    }
  }

  lemma Magnitude(x: real, u: real)
    requires Multiple(x, u)
    ensures Multiple(-x, u) && Multiple(Abs(x), u)
  {
    assert 0.0 == Times(0, u);
    Difference(0.0, x, u);
  }

  // ------------------------------------------------------------------ Rounding

  lemma Between(x: real, k: int)
    requires MIN_EXPONENT < k <= MAX_EXPONENT && Abs(x) < Pow2(k)
    ensures Exponent(x) < k && Unit(x) <= Pow2(k - 53)
  {
    var e := Exponent(x);
    if e > MIN_EXPONENT { PowersOrdered(e, k); }
    PowersGrow(e - 52, k - 53);
  }

  lemma AtLeast(x: real, k: int)
    requires MIN_EXPONENT <= k <= MAX_EXPONENT && Pow2(k) <= Abs(x)
    ensures k <= Exponent(x) && Pow2(k - 52) <= Unit(x)
  {
    var e := Exponent(x);
    if e < MAX_EXPONENT { PowersOrdered(k, e + 1); }
    PowersGrow(k - 52, e - 52);
  }

  /** Rounding a number below `Pow2(k)` moves it by at most half the unit there. */
  lemma RoundingError(x: real, k: int)
    requires MIN_EXPONENT < k <= MAX_EXPONENT && Abs(x) < Pow2(k)
    ensures Abs(Rounded(x) - x) <= Pow2(k - 53) / 2.0
  {
    Between(x, k);
    RoundedNear(x);
  }

  lemma {:induction false} CountedOff(x: real, u: real)
    requires x >= 0.0 && u > 0.0
    ensures x - Left(x, u) == Times(Count(x, u), u)
    decreases (x / u).Floor
  {
    if x < u {
      assert x - Left(x, u) == 0.0;
      assert Times(Count(x, u), u) == 0.0;
    } else {
      Fewer(x, u);
      CountedOff(x - u, u);
      CountIsNatural(x - u, u);
      var n := Count(x - u, u);
      assert Count(x, u) == 1 + n && Left(x, u) == Left(x - u, u);
      assert x - Left(x, u) == Times(n, u) + u;
      assert Times(1 + n, u) == Times(n, u) + u;
    }
  }

  lemma {:induction false} CountIsNatural(x: real, u: real)
    requires x >= 0.0 && u > 0.0
    ensures Count(x, u) >= 0
    decreases (x / u).Floor
  {
    if x >= u {
      Fewer(x, u);
      CountIsNatural(x - u, u);
      assert Count(x, u) == 1 + Count(x - u, u);
    }
  }

  lemma RoundsToMultiple(x: real, u: real)
    requires x >= 0.0 && u > 0.0
    ensures Multiple(RoundedTo(x, u), u) && Abs(RoundedTo(x, u) - x) <= u / 2.0
  {
    CountedOff(x, u);
    CountIsNatural(x, u);
    var n := Count(x, u);
    assert Times(n + 1, u) == Times(n, u) + u;
  }

  /** The rounded number is a multiple of the unit half a unit away at most. */
  lemma RoundedNear(x: real)
    ensures Multiple(Rounded(x), Unit(x)) && Abs(Rounded(x) - x) <= Unit(x) / 2.0
  {
    if x < 0.0 {
      RoundsToMultiple(-x, Unit(x));
      Magnitude(RoundedTo(-x, Unit(x)), Unit(x));
    } else {
      RoundsToMultiple(x, Unit(x));
    }
  }

  /** No multiple of the unit is nearer than the rounded number. */
  lemma NoneNearer(x: real, v: real)
    requires Multiple(v, Unit(x))
    ensures Abs(Rounded(x) - x) <= Abs(v - x)
  {
    RoundedNear(x);
    if Abs(v - x) < Abs(Rounded(x) - x) { CloseMultiples(v, Rounded(x), Unit(x)); }
  }

  lemma MultiplesAreDoubles(x: real)
    requires Multiple(x, Unit(x))
    ensures Double(x)
  {
    NoneNearer(x, x);
  }

  /** A double of the binade of `e` or above it is a multiple of the unit of that binade. */
  lemma DoubleIsMultiple(x: real, e: int)
    requires Double(x) && MIN_EXPONENT <= e <= MAX_EXPONENT && Pow2(e) <= Abs(x)
    ensures Multiple(x, Pow2(e - 52))
  {
    RoundedNear(x);
    AtLeast(x, e);
    CoarserMultiple(x, e - 52, Exponent(x) - 52);
  }

  /** A double stays clear of the end of its binade by a unit. */
  lemma ClearOfEnd(m: real)
    requires Double(m) && Exponent(m) < MAX_EXPONENT
    ensures Abs(m) <= Pow2(Exponent(m) + 1) - Unit(m)
  {
    var e := Exponent(m);
    RoundedNear(m);
    Magnitude(m, Unit(m));
    PowersGrow(e - 52, e + 1);
    if Pow2(e + 1) - Abs(m) < Unit(m) { CloseMultiples(Pow2(e + 1), Abs(m), Unit(m)); }
  }

  /** A number close to a double is not in a higher binade. */
  lemma NotAbove(m: real, z: real, g: real)
    requires Double(m) && Abs(z - m) < g <= Unit(m)
    ensures Exponent(z) <= Exponent(m)
  {
    var em, ez := Exponent(m), Exponent(z);
    if em < ez {
      ClearOfEnd(m);
      assert Abs(z) <= Abs(m) + Abs(z - m);
      PowersGrow(em + 1, ez);
    }
  }

  /** A double above the start of a binade is a unit above it. */
  lemma ClearOfStart(m: real, e: int)
    requires Double(m) && MIN_EXPONENT <= e <= MAX_EXPONENT && Pow2(e) < Abs(m)
    ensures Pow2(e) + Pow2(e - 52) <= Abs(m) && Multiple(m, Pow2(e - 52))
  {
    DoubleIsMultiple(m, e);
    Magnitude(m, Pow2(e - 52));
    PowersGrow(e - 52, e);
    if Abs(m) - Pow2(e) < Pow2(e - 52) { CloseMultiples(Abs(m), Pow2(e), Pow2(e - 52)); }
  }

  /** A double is on the grid of every number close to it. */
  lemma OnNeighboursGrid(m: real, z: real, e: int)
    requires Double(m) && MIN_EXPONENT < e <= MAX_EXPONENT && Pow2(e) < Abs(m) && Abs(z - m) < Pow2(e - 52)
    ensures e <= Exponent(z) && Multiple(m, Unit(z))
  {
    ClearOfStart(m, e);
    AtLeast(z, e);
    AtLeast(m, e);
    NotAbove(m, z, Pow2(e - 52));
    RoundedNear(m);
    CoarserMultiple(m, Exponent(z) - 52, Exponent(m) - 52);
  }

  /** What is off a double by less than half a unit of its binade, or of a smaller one, rounds back to it. */
  lemma RoundsBack(m: real, z: real, e: int)
    requires Double(m) && MIN_EXPONENT < e <= MAX_EXPONENT && Pow2(e) < Abs(m) && Abs(z - m) < Pow2(e - 52) / 2.0
    ensures Rounded(z) == m
  {
    OnNeighboursGrid(m, z, e);
    NoneNearer(z, m);
    RoundedNear(z);
    CoarserMultiple(m, e - 52, Exponent(z) - 52);
    CoarserMultiple(Rounded(z), e - 52, Exponent(z) - 52);
    CloseMultiples(Rounded(z), m, Pow2(e - 52));
  }

  /** Rounding does not cross a power of two. */
  lemma StaysAbove(x: real, k: int)
    requires MIN_EXPONENT < k <= MAX_EXPONENT && Pow2(k) <= Abs(x)
    ensures Pow2(k) <= Abs(Rounded(x))
  {
    AtLeast(x, k);
    var e := Exponent(x);
    PowersGrow(k, e);
    PowersGrow(e - 52, e);
    Magnitude(Pow2(e), Unit(x));
    NoneNearer(x, if x < 0.0 then -Pow2(e) else Pow2(e));
  }

  lemma StaysWithin(x: real)
    requires Exponent(x) < MAX_EXPONENT
    ensures Abs(Rounded(x)) <= Pow2(Exponent(x) + 1)
  {
    var e := Exponent(x);
    PowersGrow(e - 52, e + 1);
    Magnitude(Pow2(e + 1), Unit(x));
    NoneNearer(x, if x < 0.0 then -Pow2(e + 1) else Pow2(e + 1));
  }

  /** Rounding gives a double. */
  lemma RoundedIsDouble(x: real)
    ensures Double(Rounded(x))
  {
    var y, e := Rounded(x), Exponent(x);
    RoundedNear(x);
    if Exponent(y) <= e {
      CoarserMultiple(y, Exponent(y) - 52, e - 52);
      MultiplesAreDoubles(y);
    } else {
      StaysWithin(x);
      PowersGrow(e + 1, Exponent(y));
      assert Abs(y) == Pow2(Exponent(y));
      PowersGrow(Exponent(y) - 52, Exponent(y));
      Magnitude(Pow2(Exponent(y)), Unit(y));
      MultiplesAreDoubles(y);
    }
  }

  // ------------------------------------------------------------------ Whole numbers

  lemma IntegerOnGrid(x: real, i: int)
    requires Abs(x) < Pow2(53)
    ensures Multiple(i as real, Unit(x))
  {
    TimesOne(i);
    assert Multiple(i as real, Pow2(0));
    Between(x, 53);
    CoarserMultiple(i as real, Exponent(x) - 52, 0);
  }

  lemma WholeNumbers(i: int)
    requires Abs(i as real) < Pow2(53)
    ensures Double(i as real)
  {
    IntegerOnGrid(i as real, i);
    MultiplesAreDoubles(i as real);
  }

  /** Rounding does not cross a whole number. */
  lemma IntegerBounds(x: real, i: int)
    requires Abs(x) < Pow2(53)
    ensures x <= i as real ==> Rounded(x) <= i as real
    ensures i as real <= x ==> i as real <= Rounded(x)
  {
    IntegerOnGrid(x, i);
    NoneNearer(x, i as real);
  }
}
