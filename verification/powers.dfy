/** Products and natural powers of reals: the arithmetic under decay and repeated votes.
    Products of two unknowns are written `Times`, so that proofs can move them around without
    expanding them. */
module Powers {

  function Times(x: real, y: real): real { x * y }

  lemma TimesSign(x: real, y: real)
    ensures x >= 0.0 && y >= 0.0 ==> Times(x, y) >= 0.0
    ensures x > 0.0 && y > 0.0 ==> Times(x, y) > 0.0
    ensures x == 0.0 || y == 0.0 ==> Times(x, y) == 0.0
  {
  }

  lemma TimesCommutes(x: real, y: real)
    ensures Times(x, y) == Times(y, x)
  {
  }

  lemma TimesAssociates(x: real, y: real, z: real)
    ensures Times(Times(x, y), z) == Times(x, Times(y, z))
  {
  }

  lemma TimesSplits(s: real, a: real, b: real, k: real)
    requires s == a + b
    ensures Times(s, k) == Times(a, k) + Times(b, k)
    ensures Times(k, s) == Times(k, a) + Times(k, b)
  {
  }

  /** Scaling by a factor in [0,1] shrinks a non-negative quantity. */
  lemma TimesShrinks(x: real, k: real)
    requires 0.0 <= k <= 1.0 && 0.0 <= x
    ensures 0.0 <= Times(x, k) <= x
    ensures k < 1.0 && x > 0.0 ==> Times(x, k) < x
  {
    TimesSign(x, k);
    TimesSign(x, 1.0 - k);
    TimesSplits(1.0, k, 1.0 - k, x);
  }

  lemma TimesMonotone(a: real, b: real, x: real, y: real)
    requires 0.0 <= a <= b && 0.0 <= x <= y
    ensures 0.0 <= Times(a, x) <= Times(b, y)
  {
    TimesSign(a, x);
    TimesSign(b - a, x);
    TimesSign(b, y - x);
    TimesSplits(b, a, b - a, x);
    TimesSplits(y, x, y - x, b);
  }

  /** Scaling by a positive quantity keeps strict order, both ways. */
  lemma TimesOrder(s: real, x: real, y: real)
    requires 0.0 <= s && 0.0 <= x <= y
    ensures 0.0 <= Times(s, x) <= Times(s, y)
    ensures Times(s, x) < Times(s, y) <==> s > 0.0 && x < y
  {
    TimesSign(s, x);
    TimesSign(s, y - x);
    TimesSplits(y, x, y - x, s);
  }

  function Pow(b: real, n: nat): real {
    if n == 0 then 1.0 else Times(b, Pow(b, n - 1))
  }

  lemma {:induction false} PowAdd(b: real, m: nat, n: nat)
    ensures Pow(b, m + n) == Times(Pow(b, m), Pow(b, n))
  {
    if m > 0 {
      PowAdd(b, m - 1, n);
      TimesAssociates(b, Pow(b, m - 1), Pow(b, n));
    }
  }

  lemma {:induction false} PowUnit(b: real, n: nat)
    requires 0.0 <= b <= 1.0
    ensures 0.0 <= Pow(b, n) <= 1.0
    ensures b > 0.0 ==> Pow(b, n) > 0.0
  {
    if n > 0 {
      PowUnit(b, n - 1);
      TimesSign(b, Pow(b, n - 1));
      TimesShrinks(b, Pow(b, n - 1));
    }
  }

  lemma {:induction false} PowMonotone(a: real, b: real, n: nat)
    requires 0.0 <= a <= b
    ensures 0.0 <= Pow(a, n) <= Pow(b, n)
  {
    if n > 0 {
      PowMonotone(a, b, n - 1);
      TimesMonotone(a, b, Pow(a, n - 1), Pow(b, n - 1));
    }
  }

  lemma PowStep(b: real, n: nat)
    requires 0.0 <= b <= 1.0
    ensures Pow(b, n + 1) <= Pow(b, n)
    ensures 0.0 < b < 1.0 ==> Pow(b, n + 1) < Pow(b, n)
  {
    PowUnit(b, n);
    TimesShrinks(Pow(b, n), b);
    TimesCommutes(b, Pow(b, n));
  }

  lemma {:induction false} PowAntitone(b: real, m: nat, n: nat)
    requires 0.0 <= b <= 1.0 && m <= n
    ensures Pow(b, n) <= Pow(b, m)
    ensures 0.0 < b < 1.0 && m < n ==> Pow(b, n) < Pow(b, m)
    decreases n
  {
    if m < n {
      PowAntitone(b, m, n - 1);
      PowStep(b, n - 1);
    }
  }
}
