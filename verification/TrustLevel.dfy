/**
 The trust level of the light client, in the code's 64-bit arithmetic. A fraction has two
 unsigned parts; the check of a level multiplies them with wrap-around, and the power
 needed is computed with both parts converted to signed numbers.
 */
module TrustLevel {
  import opened Options

  const MAX_INT64: int := 0x7FFF_FFFF_FFFF_FFFF
  const TWO64: int := 0x1_0000_0000_0000_0000

  type uint64 = x: int | 0 <= x < 0x1_0000_0000_0000_0000

  datatype Fraction = Fraction(numerator: uint64, denominator: uint64)

  predicate ValidTrustLevel(l: Fraction) {
    !(l.numerator * 3 % TWO64 < l.denominator || l.numerator > l.denominator || l.denominator == 0)
  }

  function ToInt64(x: uint64): int {
    if x <= MAX_INT64 then x else x - TWO64
  }

  function Abs(x: int): nat {
    if x < 0 then -x else x
  }

  /** Division that truncates toward zero. */
  function Quotient(a: int, b: int): int
    requires b != 0
  {
    if (a < 0) == (b < 0) then Abs(a) / Abs(b) else -(Abs(a) / Abs(b))
  }

  /** safeMul for a total that is not negative; the least int64 has no absolute value and always overflows. */
  predicate Overflows(total: nat, b: int) {
    total > 0 && b != 0 && (Abs(b) > MAX_INT64 || total > MAX_INT64 / Abs(b))
  }

  /** Voting power needed for the trust level, or none when the product overflows. */
  function PowerNeeded(total: nat, l: Fraction): Option<int> {
    if l.denominator == 0 || Overflows(total, ToInt64(l.numerator)) then None
    else Some(Quotient(total * ToInt64(l.numerator), ToInt64(l.denominator)))
  }

  /** The share n/d of the total, rounded down. */
  function Share(total: nat, n: nat, d: nat): (r: int)
    requires d > 0
    ensures r >= 0
  {
    total * n / d
  }

  predicate MoreThanThird(tally: nat, total: nat) {
    3 * tally > total
  }

  /** Whatever exceeds the needed power is more than a third of the total. */
  ghost predicate NeedsAThird(total: nat, needed: int) {
    forall tally: nat | tally > needed :: MoreThanThird(tally, total)
  }

  /** The denominator turns negative and the quotient with it, so that no power at all is needed. */
  predicate Degenerate(total: nat, l: Fraction) {
    total > 0 && l.numerator <= MAX_INT64 < l.denominator && total * l.numerator >= TWO64 - l.denominator
  }

  lemma MulGrows(a: int, b: int, c: nat)
    requires a <= b
    ensures a * c <= b * c
  {
  }

  lemma AboveQuotient(a: nat, d: nat, t: nat)
    requires d > 0 && t > a / d
    ensures t * d > a
  {
    var k := a / d;
    assert a == k * d + a % d;
    MulGrows(k + 1, t, d);
    assert (k + 1) * d == k * d + d;
  }

  lemma AboveThird(total: nat, n: nat, d: nat, t: nat)
    requires d > 0 && d <= 3 * n && t * d > total * n
    ensures 3 * t > total
  {
    if 3 * t <= total {
      MulGrows(3 * t, total, d);
      MulGrows(d, 3 * n, total);
    }
  }

  /** Both parts are signed as they are. */
  lemma OrdinaryLevel(total: nat, n: nat, d: nat)
    requires 0 < d <= 3 * n
    ensures NeedsAThird(total, Share(total, n, d))
  {
    forall tally: nat | tally > total * n / d ensures MoreThanThird(tally, total) {
      AboveQuotient(total * n, d, tally);
      AboveThird(total, n, d, tally);
    }
  }

  /** The quotient of a product by something at least as small as its factor is at least the other factor. */
  lemma QuotientGrows(total: nat, m: nat, e: nat)
    requires 0 < e <= m
    ensures total * m / e >= total
  {
    MulGrows(e, m, total);
    var a := total * m;
    if a / e < total {
      MulGrows(a / e + 1, total, e);
    }
  }

  /** Both parts turn negative. */
  lemma BothNegative(total: nat, m: nat, e: nat)
    requires 0 < e <= m
    ensures NeedsAThird(total, Share(total, m, e))
  {
    QuotientGrows(total, m, e);
    forall tally: nat | tally > total * m / e ensures MoreThanThird(tally, total) {
    }
  }

  lemma SmallTotal(total: nat, n: nat)
    requires total * n <= MAX_INT64 && 3 * n > MAX_INT64
    ensures total < 3
  {
    if total >= 3 {
      MulGrows(3, total, n);
    }
  }

  lemma QuotientZero(a: nat, e: nat)
    requires e > 0
    ensures a / e > 0 <==> a >= e
  {
    if a < e {
      assert a / e == 0;
    } else if a / e == 0 {
      AboveQuotient(a, e, 1);
    }
  }

  lemma NegatedThird(total: nat, k: nat)
    requires total < 3 && (k > 0 ==> total > 0)
    ensures NeedsAThird(total, 0 - k) <==> k == 0
  {
    if k > 0 {
      assert !MoreThanThird(0, total);
    } else {
      forall tally: nat | tally > 0 ensures MoreThanThird(tally, total) {
      }
    }
  }

  /** Only the denominator turns negative: e is its absolute value. */
  lemma DenominatorNegative(total: nat, n: nat, e: nat)
    requires e > 0 && total * n <= MAX_INT64 && 3 * n > MAX_INT64
    ensures NeedsAThird(total, -Share(total, n, e)) <==> !(total > 0 && total * n >= e)
    ensures total > 0 && total * n >= e <==> Share(total, n, e) > 0
  {
    SmallTotal(total, n);
    QuotientZero(total * n, e);
    var k: nat := Share(total, n, e);
    assert k > 0 <==> total * n >= e;
    hide Share, NeedsAThird;
    NegatedThird(total, k);
  }

  /** The needed power, by the signs that the parts get. */
  lemma NeededBySign(total: nat, l: Fraction)
    requires PowerNeeded(total, l).Some? && 0 < l.denominator && l.numerator <= l.denominator
    ensures var n: nat, d: nat, v := l.numerator, l.denominator, PowerNeeded(total, l).value;
      && (d <= MAX_INT64 ==> v == Share(total, n, d))
      && (n <= MAX_INT64 < d ==> v == -Share(total, n, TWO64 - d))
      && (n > MAX_INT64 ==> v == Share(total, TWO64 - n, TWO64 - d))
  {
    var n: nat, d: nat := l.numerator, l.denominator;
    var a := total * ToInt64(n);
    Product(total, ToInt64(n));
    assert n > MAX_INT64 ==> Abs(ToInt64(n)) == TWO64 - n;
    assert d > MAX_INT64 ==> Abs(ToInt64(d)) == TWO64 - d;
    hide Abs, Overflows;
    assert a < 0 ==> n > MAX_INT64;
    if n > MAX_INT64 && a == 0 {
      ZeroQuotient(TWO64 - d);
    } else if n <= MAX_INT64 < d && a == 0 {
      ZeroQuotient(TWO64 - d);
    }
  }

  lemma ZeroQuotient(e: nat)
    requires e > 0
    ensures 0 / e == 0
  {
  }

  lemma Product(total: nat, b: int)
    ensures Abs(total * b) == total * Abs(b) && (total * b < 0 <==> total > 0 && b < 0)
  {
    if b < 0 {
      assert total * b == -(total * -b);
      MulGrows(1, -b, total);
    }
  }

  lemma LevelParts(l: Fraction)
    requires ValidTrustLevel(l)
    ensures 0 < l.denominator <= 3 * l.numerator && l.numerator <= l.denominator
  {
  }

  lemma OrdinaryCase(total: nat, l: Fraction)
    requires ValidTrustLevel(l) && PowerNeeded(total, l).Some? && l.denominator <= MAX_INT64
    ensures NeedsAThird(total, PowerNeeded(total, l).value) && !Degenerate(total, l) && PowerNeeded(total, l).value >= 0
  {
    LevelParts(l);
    NeededBySign(total, l);
    OrdinaryLevel(total, l.numerator, l.denominator);
    hide NeedsAThird, Share, PowerNeeded, ValidTrustLevel;
  }

  lemma NegativeCase(total: nat, l: Fraction)
    requires ValidTrustLevel(l) && PowerNeeded(total, l).Some? && l.numerator > MAX_INT64
    ensures NeedsAThird(total, PowerNeeded(total, l).value) && !Degenerate(total, l) && PowerNeeded(total, l).value >= 0
  {
    LevelParts(l);
    NeededBySign(total, l);
    BothNegative(total, TWO64 - l.numerator, TWO64 - l.denominator);
    hide NeedsAThird, Share, PowerNeeded, ValidTrustLevel;
  }

  lemma MixedCase(total: nat, l: Fraction)
    requires ValidTrustLevel(l) && PowerNeeded(total, l).Some? && l.numerator <= MAX_INT64 < l.denominator
    ensures NeedsAThird(total, PowerNeeded(total, l).value) <==> !Degenerate(total, l)
    ensures !Degenerate(total, l) ==> PowerNeeded(total, l).value >= 0
  {
    LevelParts(l);
    NeededBySign(total, l);
    assert !Overflows(total, l.numerator);
    hide NeedsAThird, Share, PowerNeeded, ValidTrustLevel, Overflows;
    ProductFits(total, l.numerator);
    DenominatorNegative(total, l.numerator, TWO64 - l.denominator);
  }

  /** A level that passes the check needs more than a third of the power exactly if it is not degenerate. */
  lemma NeededIsAThird(total: nat, l: Fraction)
    requires ValidTrustLevel(l) && PowerNeeded(total, l).Some?
    ensures NeedsAThird(total, PowerNeeded(total, l).value) <==> !Degenerate(total, l)
    ensures !Degenerate(total, l) ==> PowerNeeded(total, l).value >= 0
  {
    hide *;
    if l.denominator <= MAX_INT64 {
      OrdinaryCase(total, l);
    } else if l.numerator > MAX_INT64 {
      NegativeCase(total, l);
    } else {
      MixedCase(total, l);
    }
  }

  lemma ProductFits(total: nat, n: nat)
    requires !Overflows(total, n)
    ensures total * n <= MAX_INT64
  {
    if total > 0 && n > 0 {
      MulGrows(total, MAX_INT64 / n, n);
    }
  }

  /** A level that is allowed and degenerate: one third, written with the largest parts. */
  lemma DegenerateLevel()
    ensures var l := Fraction(0x5555_5555_5555_5555, 0xFFFF_FFFF_FFFF_FFFF);
      ValidTrustLevel(l) && PowerNeeded(1, l).Some? && !NeedsAThird(1, PowerNeeded(1, l).value)
  {
    var l := Fraction(0x5555_5555_5555_5555, 0xFFFF_FFFF_FFFF_FFFF);
    assert PowerNeeded(1, l).value < 0;
    assert !MoreThanThird(0, 1);
  }

  /** Parsing a level refuses anything above the largest int64, and so never gives a degenerate one. */
  lemma ParsedLevel(l: Fraction, total: nat)
    requires l.numerator <= MAX_INT64 && l.denominator <= MAX_INT64
    ensures !Degenerate(total, l)
  {
  }
}
