/** Integers as 64-bit floating-point numbers (IEEE 754 binary64, round to nearest, ties to even). */
module Float64 {

  /** Every integer up to here is a binary64 number. */
  const EXACT: nat := 0x20_0000_0000_0000

  /** q + r/unit rounded to an integer, to the even one when halfway. */
  function Nearest(q: nat, r: nat, unit: nat): (n: nat)
    ensures q <= n <= q + 1
  {
    if 2 * r < unit || (2 * r == unit && q % 2 == 0) then q else q + 1
  }

  /** The multiple of unit nearest to x. */
  function Round(x: nat, unit: nat): nat
    requires unit > 0
  {
    Nearest(x / unit, x % unit, unit) * unit
  }

  /** x rounded to 53 significant bits, when its last bit of precision weighs unit or more. */
  function RoundFrom(x: nat, unit: nat): nat
    requires unit > 0
    decreases x - EXACT * unit
  {
    if x < EXACT * unit then Round(x, unit) else RoundFrom(x, 2 * unit)
  }

  /** float64(x) for an integer x. */
  function OfInt(x: int): int {
    if x >= 0 then RoundFrom(x, 1) else 0 - RoundFrom(-x, 1)
  }

  lemma Scale(a: nat, b: nat, unit: nat)
    requires a <= b
    ensures a * unit <= b * unit
  {
  }

  lemma QuotientMonotone(x: nat, y: nat, unit: nat)
    requires unit > 0 && x <= y
    ensures x / unit <= y / unit
  {
    var q, q' := x / unit, y / unit;
    assert q * unit <= x && y < q' * unit + unit;
    if q > q' {
      Scale(q' + 1, q, unit);
    }
  }

  lemma QuotientOfMultiple(k: nat, unit: nat)
    requires unit > 0
    ensures (k * unit) / unit == k && (k * unit) % unit == 0
  {
    var q, r := (k * unit) / unit, (k * unit) % unit;
    assert q * unit + r == k * unit;
    if q < k {
      Scale(q + 1, k, unit);
    } else if q > k {
      Scale(k + 1, q, unit);
    }
  }

  lemma NearestMonotone(q: nat, r: nat, q': nat, r': nat, unit: nat)
    requires q < q' || (q == q' && r <= r')
    ensures Nearest(q, r, unit) <= Nearest(q', r', unit)
  {
    if q < q' {
      assert Nearest(q, r, unit) <= q + 1 <= q' <= Nearest(q', r', unit);
    }
  }

  lemma RemainderMonotone(x: nat, y: nat, unit: nat)
    requires unit > 0 && x <= y && x / unit == y / unit
    ensures x % unit <= y % unit
  {
    var q := x / unit;
    assert x == q * unit + x % unit && y == q * unit + y % unit;
  }

  lemma RoundMonotone(x: nat, y: nat, unit: nat)
    requires unit > 0 && x <= y
    ensures Round(x, unit) <= Round(y, unit)
  {
    var q, r, q', r' := x / unit, x % unit, y / unit, y % unit;
    QuotientMonotone(x, y, unit);
    if q == q' {
      RemainderMonotone(x, y, unit);
    }
    NearestMonotone(q, r, q', r', unit);
    Scale(Nearest(q, r, unit), Nearest(q', r', unit), unit);
  }

  lemma RoundBounds(x: nat, unit: nat, k: nat)
    requires unit > 0
    ensures x <= k * unit ==> Round(x, unit) <= k * unit
    ensures k * unit <= x ==> k * unit <= Round(x, unit)
  {
    QuotientOfMultiple(k, unit);
    if x <= k * unit {
      RoundMonotone(x, k * unit, unit);
    }
    if k * unit <= x {
      RoundMonotone(k * unit, x, unit);
    }
  }

  /** What is rounded more coarsely is at least as large. */
  lemma RoundFromAtLeast(y: nat, unit: nat)
    requires unit > 0 && y >= EXACT * unit
    ensures RoundFrom(y, unit) >= EXACT * unit
    decreases y - EXACT * unit
  {
    if y < EXACT * (2 * unit) {
      RoundBounds(y, 2 * unit, EXACT / 2);
      assert (EXACT / 2) * (2 * unit) == EXACT * unit;
    } else {
      RoundFromAtLeast(y, 2 * unit);
    }
  }

  lemma {:induction false} RoundFromMonotone(x: nat, y: nat, unit: nat)
    requires unit > 0 && x <= y
    ensures RoundFrom(x, unit) <= RoundFrom(y, unit)
    decreases y - EXACT * unit
  {
    if y < EXACT * unit {
      RoundMonotone(x, y, unit);
    } else if x < EXACT * unit {
      RoundBounds(x, unit, EXACT);
      RoundFromAtLeast(y, unit);
    } else {
      RoundFromMonotone(x, y, 2 * unit);
    }
  }

  /** The conversion keeps the order of non-negative integers, and keeps those up to 2^53 apart. */
  lemma OfIntMonotone(x: nat, y: nat)
    requires x <= y
    ensures OfInt(x) <= OfInt(y)
    ensures y <= EXACT ==> OfInt(x) == x && OfInt(y) == y
  {
    RoundFromMonotone(x, y, 1);
    OfIntExact(x);
    OfIntExact(y);
  }

  lemma OfIntExact(x: nat)
    ensures x <= EXACT ==> OfInt(x) == x
  {
    if x == EXACT {
      assert RoundFrom(x, 1) == RoundFrom(x, 2) == Round(x, 2);
    }
  }

  /** The first two neighbours that become one number. */
  lemma OfIntCollides()
    ensures OfInt(EXACT) == OfInt(EXACT + 1)
  {
    assert RoundFrom(EXACT, 1) == RoundFrom(EXACT, 2) == Round(EXACT, 2);
    assert RoundFrom(EXACT + 1, 1) == RoundFrom(EXACT + 1, 2) == Round(EXACT + 1, 2);
  }

  // ----- It is the nearest binary64 number -----

  ghost predicate PowerOfTwo(n: nat) {
    n == 1 || (n > 0 && n % 2 == 0 && PowerOfTwo(n / 2))
  }

  /** unit is what the last of the 53 bits of x weighs, at least 1. */
  ghost predicate LastBit(x: nat, unit: nat) {
    PowerOfTwo(unit) && x < EXACT * unit && (unit == 1 || x >= EXACT * (unit / 2))
  }

  ghost function Distance(a: nat, b: nat): nat {
    if a <= b then b - a else a - b
  }

  /** n is the multiple of unit nearest to x, the even one if there are two. */
  ghost predicate IsNearest(n: nat, x: nat, unit: nat)
  {
    exists k: nat :: n == k * unit && 2 * Distance(n, x) <= unit && (2 * Distance(n, x) == unit ==> k % 2 == 0)
  }

  lemma RoundIsNearest(x: nat, unit: nat)
    requires unit > 0
    ensures IsNearest(Round(x, unit), x, unit)
  {
    var q, r := x / unit, x % unit;
    var k := Nearest(q, r, unit);
    assert x == q * unit + r;
    if k == q {
      assert Distance(k * unit, x) == r;
    } else {
      assert (q + 1) * unit == q * unit + unit;
      assert Distance(k * unit, x) == unit - r;
    }
    assert Round(x, unit) == k * unit;
  }

  lemma {:induction false} RoundFromIsNearest(x: nat, from: nat) returns (unit: nat)
    requires PowerOfTwo(from) && (from == 1 || x >= EXACT * (from / 2))
    ensures LastBit(x, unit) && IsNearest(RoundFrom(x, from), x, unit)
    decreases x - EXACT * from
  {
    if x < EXACT * from {
      RoundIsNearest(x, from);
      unit := from;
    } else {
      assert 2 * from / 2 == from;
      unit := RoundFromIsNearest(x, 2 * from);
    }
  }

  /** The conversion rounds to the nearest number with 53 bits, ties to even. */
  lemma OfIntIsNearest(x: nat) returns (unit: nat)
    ensures LastBit(x, unit) && IsNearest(OfInt(x), x, unit)
  {
    unit := RoundFromIsNearest(x, 1);
  }
}
