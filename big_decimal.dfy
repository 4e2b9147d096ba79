/** java.math.BigDecimal, restricted to what the invoice and expense code
    uses. A value is an unscaled integer and a scale and stands for
    unscaled * 10^-scale. Arithmetic is exact and follows BigDecimal's scale
    rules; datatype equality is BigDecimal.equals, which compares the scale
    too (2.0 and 2.00 are not equal), while IsZero is `signum() == 0`. */
module BigDecimals {

  datatype Decimal = Decimal(unscaled: int, scale: nat)

  /** BigDecimal.ZERO */
  const Zero: Decimal := Decimal(0, 0)

  function Pow10(n: nat): (r: nat)
    ensures r >= 1
  {
    if n == 0 then 1 else 10 * Pow10(n - 1)
  }

  function Max(a: nat, b: nat): nat {
    if a >= b then a else b
  }

  /** The unscaled value d has when it is written at the (finer) scale s,
      that is d.unscaled * 10^(s - d.scale) (RescaleIsPow10); two decimals
      are numerically equal exactly when they agree here. It is defined by
      repeated multiplication by ten so that it stays linear arithmetic. */
  function Rescale(d: Decimal, s: nat): int
    requires d.scale <= s
    decreases s - d.scale
  {
    if s == d.scale then d.unscaled else 10 * Rescale(d, s - 1)
  }

  lemma {:induction false} RescaleIsPow10(d: Decimal, s: nat)
    requires d.scale <= s
    ensures Rescale(d, s) == d.unscaled * Pow10(s - d.scale)
    decreases s - d.scale
  {
    if s > d.scale {
      RescaleIsPow10(d, s - 1);
      assert Pow10(s - d.scale) == 10 * Pow10(s - 1 - d.scale);
    }
  }

  /** `signum() == 0` */
  predicate IsZero(d: Decimal) {
    d.unscaled == 0
  }

  /** BigDecimal.valueOf(long) */
  function FromInt(n: int): (r: Decimal)
    ensures r.scale == 0 && IsZero(r) == (n == 0)
  {
    Decimal(n, 0)
  }

  function Negate(a: Decimal): (r: Decimal)
    ensures r.scale == a.scale
  {
    Decimal(-a.unscaled, a.scale)
  }

  /** `add`: exact, with the larger of the two scales. */
  function Add(a: Decimal, b: Decimal): (r: Decimal)
    ensures r.scale == Max(a.scale, b.scale)
  {
    var m := Max(a.scale, b.scale);
    Decimal(Rescale(a, m) + Rescale(b, m), m)
  }

  /** `subtract`: exact, with the larger of the two scales. */
  function Subtract(a: Decimal, b: Decimal): (r: Decimal)
    ensures r.scale == Max(a.scale, b.scale)
  {
    var m := Max(a.scale, b.scale);
    Decimal(Rescale(a, m) - Rescale(b, m), m)
  }

  /** `multiply`: exact, the scales add up. */
  function Multiply(a: Decimal, b: Decimal): (r: Decimal)
    ensures r.scale == a.scale + b.scale
  {
    Decimal(a.unscaled * b.unscaled, a.scale + b.scale)
  }

  function Abs(x: int): nat {
    if x < 0 then -x else x
  }

  /** RoundingMode.HALF_UP for n / d: the nearest integer, ties away from
      zero (for negative n too). */
  function DivHalfUp(n: int, d: int): (q: int)
    requires d > 0
  {
    if n >= 0 then (n + d / 2) / d else -((-n + d / 2) / d)
  }

  /** The rounding obligations of HALF_UP: q * d is within d/2 of n and a tie
      is broken away from zero. */
  predicate RoundsHalfUp(n: int, d: int, q: int)
    requires d > 0
  {
    && 2 * Abs(n - q * d) <= d
    && (2 * Abs(n - q * d) == d ==> Abs(q * d) > Abs(n))
  }

  lemma DivHalfUpNonNegative(m: nat, d: int)
    requires d > 0
    ensures RoundsHalfUp(m, d, (m + d / 2) / d)
  {
    var q := (m + d / 2) / d;
    var r := (m + d / 2) % d;
    assert m + d / 2 == q * d + r && 0 <= r < d;
    assert m - q * d == r - d / 2;
    assert q >= 0;
    if 2 * Abs(m - q * d) == d {
      assert r < d / 2;
      assert q * d > m;
    }
  }

  /** DivHalfUp does round half up. */
  lemma DivHalfUpRounds(n: int, d: int)
    requires d > 0
    ensures RoundsHalfUp(n, d, DivHalfUp(n, d))
  {
    if n >= 0 {
      DivHalfUpNonNegative(n, d);
    } else {
      DivHalfUpNonNegative(-n, d);
      var q := (-n + d / 2) / d;
      assert -n - q * d == -(n - (-q) * d);
      assert Abs((-q) * d) == Abs(q * d);
    }
  }

  /** For the divisor the services use (100), half-up rounding determines
      the quotient: DivHalfUp is the only quotient that rounds half up. */
  lemma RoundsHalfUpUnique(n: int, q: int)
    requires RoundsHalfUp(n, 100, q)
    ensures q == DivHalfUp(n, 100)
  {
    DivHalfUpRounds(n, 100);
  }

  /** `divide(BigDecimal(divisor), RoundingMode.HALF_UP)` for an integer
      divisor of scale 0: the quotient keeps the dividend's scale and its
      unscaled value is rounded half up. */
  function DivideHalfUp(a: Decimal, divisor: int): (r: Decimal)
    requires divisor > 0
    ensures r.scale == a.scale
    ensures RoundsHalfUp(a.unscaled, divisor, r.unscaled)
  {
    DivHalfUpRounds(a.unscaled, divisor);
    Decimal(DivHalfUp(a.unscaled, divisor), a.scale)
  }

  /** Summing a list from BigDecimal.ZERO with `add`, left to right, as
      `sumOf`, `fold` and a `+=` loop do. */
  function Sum(ds: seq<Decimal>): (r: Decimal)
  {
    if ds == [] then Zero else Add(Sum(ds[..|ds| - 1]), ds[|ds| - 1])
  }

  /** The scale of a sum is at least the scale of each summand. */
  lemma {:induction false} SumScale(ds: seq<Decimal>)
    ensures forall i :: 0 <= i < |ds| ==> ds[i].scale <= Sum(ds).scale
  {
    if ds != [] {
      SumScale(ds[..|ds| - 1]);
    }
  }

  predicate ScalesAtMost(ds: seq<Decimal>, s: nat) {
    forall i :: 0 <= i < |ds| ==> ds[i].scale <= s
  }

  /** The integer sum of the values of ds, all written at scale s. */
  function ScaledSum(ds: seq<Decimal>, s: nat): int
    requires ScalesAtMost(ds, s)
  {
    if ds == [] then 0 else ScaledSum(ds[..|ds| - 1], s) + Rescale(ds[|ds| - 1], s)
  }

  /** Writing a value at scale m and then at the finer scale s is writing
      it at s. */
  lemma {:induction false} RescaleTwice(d: Decimal, m: nat, s: nat)
    requires d.scale <= m <= s
    ensures Rescale(Decimal(Rescale(d, m), m), s) == Rescale(d, s)
    decreases s - m
  {
    if s > m {
      RescaleTwice(d, m, s - 1);
    }
  }

  /** Rescaling is additive in the unscaled value. */
  lemma {:induction false} RescaleSum(u: int, v: int, m: nat, s: nat)
    requires m <= s
    ensures Rescale(Decimal(u + v, m), s) == Rescale(Decimal(u, m), s) + Rescale(Decimal(v, m), s)
    decreases s - m
  {
    if s > m {
      RescaleSum(u, v, m, s - 1);
    }
  }

  lemma {:induction false} RescaleNegative(u: int, m: nat, s: nat)
    requires m <= s
    ensures Rescale(Decimal(-u, m), s) == -Rescale(Decimal(u, m), s)
    decreases s - m
  {
    if s > m {
      RescaleNegative(u, m, s - 1);
    }
  }

  /** Addition is exact at every common scale. */
  lemma AddAt(a: Decimal, b: Decimal, s: nat)
    requires a.scale <= s && b.scale <= s
    ensures Add(a, b).scale <= s
    ensures Rescale(Add(a, b), s) == Rescale(a, s) + Rescale(b, s)
  {
    var m := Max(a.scale, b.scale);
    RescaleSum(Rescale(a, m), Rescale(b, m), m, s);
    RescaleTwice(a, m, s);
    RescaleTwice(b, m, s);
  }

  lemma SubtractAt(a: Decimal, b: Decimal, s: nat)
    requires a.scale <= s && b.scale <= s
    ensures Subtract(a, b).scale <= s
    ensures Rescale(Subtract(a, b), s) == Rescale(a, s) - Rescale(b, s)
  {
    var m := Max(a.scale, b.scale);
    RescaleSum(Rescale(a, m), -Rescale(b, m), m, s);
    RescaleNegative(Rescale(b, m), m, s);
    RescaleTwice(a, m, s);
    RescaleTwice(b, m, s);
  }

  lemma NegateAt(a: Decimal, s: nat)
    requires a.scale <= s
    ensures Rescale(Negate(a), s) == -Rescale(a, s)
  {
    RescaleNegative(a.unscaled, a.scale, s);
  }

  /** A decimal is zero exactly when its value at any finer scale is. */
  lemma {:induction false} IsZeroAt(d: Decimal, s: nat)
    requires d.scale <= s
    ensures IsZero(d) <==> Rescale(d, s) == 0
    decreases s - d.scale
  {
    if s > d.scale {
      IsZeroAt(d, s - 1);
    }
  }

  lemma {:induction false} ScaledSumAppend(a: seq<Decimal>, b: seq<Decimal>, s: nat)
    requires ScalesAtMost(a, s) && ScalesAtMost(b, s)
    ensures ScalesAtMost(a + b, s)
    ensures ScaledSum(a + b, s) == ScaledSum(a, s) + ScaledSum(b, s)
  {
    if b != [] {
      var b' := b[..|b| - 1];
      assert (a + b)[..|a + b| - 1] == a + b';
      ScaledSumAppend(a, b', s);
    } else {
      assert a + b == a;
    }
  }

  lemma ScaledSumSnoc(ds: seq<Decimal>, d: Decimal, s: nat)
    requires ScalesAtMost(ds, s) && d.scale <= s
    ensures ScalesAtMost(ds + [d], s)
    ensures ScaledSum(ds + [d], s) == ScaledSum(ds, s) + Rescale(d, s)
  {
    assert (ds + [d])[..|ds|] == ds;
  }

  /** The BigDecimal sum is exact: its value is the sum of the values. */
  lemma {:induction false} SumAt(ds: seq<Decimal>, s: nat)
    requires ScalesAtMost(ds, s)
    ensures Sum(ds).scale <= s
    ensures Rescale(Sum(ds), s) == ScaledSum(ds, s)
  {
    if ds != [] {
      var ds' := ds[..|ds| - 1];
      SumAt(ds', s);
      AddAt(Sum(ds'), ds[|ds| - 1], s);
    } else {
      IsZeroAt(Zero, s);
    }
  }

  function Negated(ds: seq<Decimal>): (r: seq<Decimal>)
    ensures |r| == |ds| && forall i :: 0 <= i < |ds| ==> r[i] == Negate(ds[i])
  {
    if ds == [] then [] else Negated(ds[..|ds| - 1]) + [Negate(ds[|ds| - 1])]
  }

  lemma {:induction false} ScaledSumNegated(ds: seq<Decimal>, s: nat)
    requires ScalesAtMost(ds, s)
    ensures ScalesAtMost(Negated(ds), s)
    ensures ScaledSum(Negated(ds), s) == -ScaledSum(ds, s)
  {
    if ds != [] {
      var ds' := ds[..|ds| - 1];
      assert Negated(ds)[..|ds| - 1] == Negated(ds');
      ScaledSumNegated(ds', s);
      NegateAt(ds[|ds| - 1], s);
    }
  }
}
