/**
 * The cashback calculator. Money is counted in whole cents. An offer's percentage or fixed amount is
 * the decimal numeral that `str(float)` prints, kept as a coefficient over a power of ten.
 */
module Cashback {
  import opened Wrappers

  /** The non-negative decimal `coefficient / 10^scale`. */
  datatype Decimal = Decimal(coefficient: nat, scale: nat)

  datatype Offer = Offer(percentage: Decimal, fixedAmount: Option<Decimal>)

  function Pow10(k: nat): (p: nat)
    ensures p > 0
  {
    if k == 0 then 1 else 10 * Pow10(k - 1)
  }

  // ----- roundTiesToEven (IEEE 754-2008, section 4.3.1)

  function RoundHalfEven(num: nat, den: nat): nat
    requires den > 0
  {
    var q, r := num / den, num % den;
    if 2 * r < den || (2 * r == den && q % 2 == 0) then q else q + 1
  }

  /** Twice the distance from `q` up to `num / den`, in units of `1 / den`. */
  ghost function Gap(num: nat, den: nat, q: nat): int {
    2 * num - 2 * (q * den)
  }

  /** `q` is an integer nearest to `num / den`, and the even one when two are equally near. */
  ghost predicate IsNearestEven(num: nat, den: nat, q: nat) {
    && 0 - den <= Gap(num, den, q) <= den
    && (Gap(num, den, q) == den || Gap(num, den, q) == 0 - den ==> q % 2 == 0)
  }

  lemma MulMonotone(a: int, b: int, c: int)
    requires a <= b && 0 <= c
    ensures a * c <= b * c
  {
    assert (b - a) * c == b * c - a * c;
  }

  lemma Distribute(a: int, b: int, c: int)
    ensures (a + b) * c == a * c + b * c
  {
  }

  /** How far apart two multiples of `den` are. */
  lemma MulGap(p: int, q: int, den: int)
    requires den > 0
    ensures q == p + 1 ==> q * den == p * den + den
    ensures q >= p + 2 ==> q * den >= p * den + 2 * den
  {
    if q >= p + 2 {
      MulMonotone(p + 2, q, den);
      Distribute(p, 2, den);
    }
  }

  lemma NearestEvenIsUnique(num: nat, den: nat, p: nat, q: nat)
    requires den > 0 && p <= q
    requires IsNearestEven(num, den, p) && IsNearestEven(num, den, q)
    ensures p == q
  {
    MulGap(p, q, den);
  }

  lemma GapOfQuotient(num: nat, den: nat, q: nat, r: nat)
    requires num == q * den + r
    ensures Gap(num, den, q) == 2 * r && Gap(num, den, q + 1) == 2 * r - 2 * den
  {
    Distribute(q, 1, den);
  }

  lemma RoundedIsNearest(num: nat, den: nat)
    requires den > 0
    ensures IsNearestEven(num, den, RoundHalfEven(num, den))
  {
    GapOfQuotient(num, den, num / den, num % den);
  }

  lemma RoundHalfEvenIsNearest(num: nat, den: nat, q: nat)
    requires den > 0
    ensures IsNearestEven(num, den, q) <==> q == RoundHalfEven(num, den)
  {
    var r := RoundHalfEven(num, den);
    RoundedIsNearest(num, den);
    if IsNearestEven(num, den, q) {
      if q <= r {
        NearestEvenIsUnique(num, den, q, r);
      } else {
        NearestEvenIsUnique(num, den, r, q);
      }
    }
  }

  lemma Positive(x: int, c: int)
    requires 0 <= x && 0 < c
    ensures 0 <= x * c && (x * c == 0 ==> x == 0)
  {
    if x > 0 {
      MulMonotone(1, x, c);
    }
  }

  lemma ScaledEnds(g: int, den: int, c: int)
    requires 0 < c && 0 - den <= g <= den
    ensures 0 - den * c <= g * c <= den * c
    ensures g * c == den * c ==> g == den
    ensures g * c == 0 - den * c ==> g == 0 - den
  {
    Distribute(den, g, c);
    Distribute(den, 0 - g, c);
    Positive(den + g, c);
    Positive(den - g, c);
  }

  lemma GapScales(num: nat, den: nat, q: nat, c: nat)
    requires c > 0
    ensures Gap(num * c, den * c, q) == Gap(num, den, q) * c
  {
    assert q * (den * c) == (q * den) * c;
  }

  lemma NearestEvenScales(num: nat, den: nat, q: nat, c: nat)
    requires c > 0 && IsNearestEven(num, den, q)
    ensures IsNearestEven(num * c, den * c, q)
  {
    GapScales(num, den, q, c);
    ScaledEnds(Gap(num, den, q), den, c);
  }

  lemma RoundHalfEvenScales(num: nat, den: nat, c: nat)
    requires den > 0 && c > 0
    ensures den * c > 0
    ensures RoundHalfEven(num * c, den * c) == RoundHalfEven(num, den)
  {
    var q := RoundHalfEven(num, den);
    RoundHalfEvenIsNearest(num, den, q);
    NearestEvenScales(num, den, q, c);
    RoundHalfEvenIsNearest(num * c, den * c, q);
  }

  lemma NearestEvenMonotone(num: nat, num': nat, den: nat, q: nat, q': nat)
    requires den > 0 && num <= num'
    requires IsNearestEven(num, den, q) && IsNearestEven(num', den, q')
    ensures q <= q'
  {
    MulGap(q', q, den);
  }

  lemma RoundHalfEvenMonotone(num: nat, num': nat, den: nat)
    requires den > 0 && num <= num'
    ensures RoundHalfEven(num, den) <= RoundHalfEven(num', den)
  {
    RoundHalfEvenIsNearest(num, den, RoundHalfEven(num, den));
    RoundHalfEvenIsNearest(num', den, RoundHalfEven(num', den));
    NearestEvenMonotone(num, num', den, RoundHalfEven(num, den), RoundHalfEven(num', den));
  }

  /** Rounding is monotone in the rational value, whatever the denominators. */
  lemma RoundHalfEvenMonotoneRational(num: nat, den: nat, num': nat, den': nat)
    requires den > 0 && den' > 0 && num * den' <= num' * den
    ensures RoundHalfEven(num, den) <= RoundHalfEven(num', den')
  {
    RoundHalfEvenScales(num, den, den');
    RoundHalfEvenScales(num', den', den);
    assert den * den' == den' * den;
    RoundHalfEvenMonotone(num * den', num' * den, den * den');
  }

  // ----- the decimal context

  /** The context's precision: a product keeps at most 28 significant digits. */
  const PRECISION: nat := 28

  function Digits(c: nat): nat {
    if c < 10 then 1 else 1 + Digits(c / 10)
  }

  /** `c` rounded to a multiple of `10^dropped`. */
  function DropDigits(c: nat, dropped: nat): nat {
    RoundHalfEven(c, Pow10(dropped)) * Pow10(dropped)
  }

  /** How many trailing digits the context rounds away. */
  function Excess(c: nat): nat {
    if Digits(c) <= PRECISION then 0 else Digits(c) - PRECISION
  }

  /** A coefficient as an operation of the context leaves it. */
  function ContextRound(c: nat): nat {
    if Digits(c) <= PRECISION then c else DropDigits(c, Excess(c))
  }

  lemma {:induction false} DigitsBound(c: nat, k: nat)
    requires c < Pow10(k) && k > 0
    ensures Digits(c) <= k
  {
    if c < 10 {
    } else {
      DigitsBound(c / 10, k - 1);
    }
  }

  /** A number of `d` digits lies between the powers of ten `d - 1` and `d`. */
  lemma {:induction false} DigitsRange(c: nat)
    requires c > 0
    ensures Pow10(Digits(c) - 1) <= c < Pow10(Digits(c))
  {
    if c < 10 {
    } else {
      DigitsRange(c / 10);
    }
  }

  lemma {:induction false} Pow10Monotone(i: nat, j: nat)
    requires i <= j
    ensures Pow10(i) <= Pow10(j)
  {
    if i == j {
    } else {
      Pow10Monotone(i, j - 1);
    }
  }

  lemma DigitsMonotone(c: nat, c': nat)
    requires c <= c'
    ensures Digits(c) <= Digits(c')
  {
    if c > 0 {
      DigitsRange(c');
      DigitsBound(c, Digits(c'));
    }
  }

  lemma Associate(a: int, b: int, c: int)
    ensures (a * b) * c == a * (b * c)
  {
  }

  lemma {:induction false} Pow10Adds(i: nat, j: nat)
    ensures Pow10(i + j) == Pow10(i) * Pow10(j)
  {
    if i == 0 {
    } else {
      Pow10Adds(i - 1, j);
      Associate(10, Pow10(i - 1), Pow10(j));
    }
  }

  lemma RoundedMultiple(x: nat, den: nat)
    requires den > 0
    ensures RoundHalfEven(x * den, den) == x
  {
    RoundHalfEvenIsNearest(x * den, den, x);
  }

  /** Rounding away digits goes past no multiple of the last digit kept. */
  lemma DropDigitsWithin(c: nat, k: nat, lo: nat, hi: nat)
    requires lo * Pow10(k) <= c <= hi * Pow10(k)
    ensures lo * Pow10(k) <= DropDigits(c, k) <= hi * Pow10(k)
  {
    RoundedMultiple(lo, Pow10(k));
    RoundedMultiple(hi, Pow10(k));
    RoundHalfEvenMonotone(lo * Pow10(k), c, Pow10(k));
    RoundHalfEvenMonotone(c, hi * Pow10(k), Pow10(k));
    MulMonotone(lo, RoundHalfEven(c, Pow10(k)), Pow10(k));
    MulMonotone(RoundHalfEven(c, Pow10(k)), hi, Pow10(k));
  }

  /** The context moves a number at most to the power of ten above or below it. */
  lemma ContextRoundRange(c: nat)
    requires c > 0
    ensures Pow10(Digits(c) - 1) <= ContextRound(c) <= Pow10(Digits(c))
  {
    DigitsRange(c);
    if Digits(c) > PRECISION {
      Pow10Adds(PRECISION - 1, Excess(c));
      Pow10Adds(PRECISION, Excess(c));
      DropDigitsWithin(c, Excess(c), Pow10(PRECISION - 1), Pow10(PRECISION));
    }
  }

  lemma DropDigitsMonotone(c: nat, c': nat, k: nat)
    requires c <= c'
    ensures DropDigits(c, k) <= DropDigits(c', k)
  {
    RoundHalfEvenMonotone(c, c', Pow10(k));
    MulMonotone(RoundHalfEven(c, Pow10(k)), RoundHalfEven(c', Pow10(k)), Pow10(k));
  }

  lemma ContextRoundMonotone(c: nat, c': nat)
    requires c <= c'
    ensures ContextRound(c) <= ContextRound(c')
  {
    DigitsMonotone(c, c');
    if Digits(c) == Digits(c') {
      DropDigitsMonotone(c, c', Excess(c));
    } else if c > 0 {
      ContextRoundRange(c);
      ContextRoundRange(c');
      Pow10Monotone(Digits(c), Digits(c') - 1);
    }
  }

  lemma TenTimes(c: nat, p: nat)
    ensures c * (10 * p) == 10 * (c * p)
  {
  }

  lemma {:induction false} DigitsShift(c: nat, k: nat)
    requires c > 0
    ensures c * Pow10(k) > 0 && Digits(c * Pow10(k)) == Digits(c) + k
  {
    if k == 0 {
    } else {
      DigitsShift(c, k - 1);
      TenTimes(c, Pow10(k - 1));
    }
  }

  /** Digits shifted in on the right can only be zeros, and rounding them away changes nothing. */
  lemma DropShifted(c: nat, k: nat, m: nat)
    requires m <= k
    ensures DropDigits(c * Pow10(k), m) == c * Pow10(k)
  {
    Pow10Adds(k - m, m);
    Associate(c, Pow10(k - m), Pow10(m));
    RoundedMultiple(c * Pow10(k - m), Pow10(m));
  }

  lemma DropBeyondShift(c: nat, k: nat, j: nat)
    ensures DropDigits(c * Pow10(k), j + k) == DropDigits(c, j) * Pow10(k)
  {
    Pow10Adds(j, k);
    RoundHalfEvenScales(c, Pow10(j), Pow10(k));
    Associate(RoundHalfEven(c, Pow10(j)), Pow10(j), Pow10(k));
  }

  /** The context rounds significant digits, wherever the decimal point is. */
  lemma ContextRoundShifts(c: nat, k: nat)
    ensures ContextRound(c * Pow10(k)) == ContextRound(c) * Pow10(k)
  {
    if c > 0 {
      DigitsShift(c, k);
      if Digits(c) > PRECISION {
        DropBeyondShift(c, k, Excess(c));
      } else if Digits(c) + k > PRECISION {
        DropShifted(c, k, Excess(c * Pow10(k)));
      }
    }
  }

  // ----- the calculator

  /** The cashback of an offer on a purchase, both in cents. */
  function Calculate(offer: Offer, amount: nat): nat {
    match offer.fixedAmount
    case Some(fixed) => RoundHalfEven(fixed.coefficient * 100, Pow10(fixed.scale))
    case None =>
      RoundHalfEven(ContextRound(amount * offer.percentage.coefficient), 100 * Pow10(offer.percentage.scale))
  }

  /** The product of amount and percentage has few enough digits for the context to keep them all. */
  predicate Exact(offer: Offer, amount: nat) {
    offer.fixedAmount.None? && Digits(amount * offer.percentage.coefficient) <= PRECISION
  }

  lemma ProductBelow(a: nat, c: nat, i: nat, j: nat)
    requires a < Pow10(i) && c < Pow10(j)
    ensures a * c < Pow10(i + j)
  {
    Pow10Adds(i, j);
    MulMonotone(c, Pow10(j), a);
    MulMonotone(a, Pow10(i) - 1, Pow10(j));
    Distribute(Pow10(i), -1, Pow10(j));
  }

  lemma ProductDigits(a: nat, c: nat, product: nat, i: nat, j: nat)
    requires a < Pow10(i) && c < Pow10(j) && 0 < i + j && product == a * c
    ensures Digits(product) <= i + j
  {
    ProductBelow(a, c, i, j);
    DigitsBound(product, i + j);
  }

  /** Amounts of `Numeric(12, 2)` are exact with percentages of at most 16 significant digits. */
  lemma ExactProduct(offer: Offer, amount: nat)
    requires offer.fixedAmount.None? && amount < Pow10(12) && offer.percentage.coefficient < Pow10(16)
    ensures Exact(offer, amount)
    ensures ContextRound(amount * offer.percentage.coefficient) == amount * offer.percentage.coefficient
  {
    ProductDigits(amount, offer.percentage.coefficient, amount * offer.percentage.coefficient, 12, 16);
  }

  /** `cents` is the cent nearest to `amount * percentage / 100`, ties to even. */
  ghost predicate IsPercentageOf(offer: Offer, amount: nat, cents: nat) {
    IsNearestEven(amount * offer.percentage.coefficient, 100 * Pow10(offer.percentage.scale), cents)
  }

  /** The percentage cashback is the cent nearest to `amount * percentage / 100`, ties to even. */
  lemma PercentageCashbackIsNearest(offer: Offer, amount: nat, cents: nat)
    requires Exact(offer, amount)
    ensures cents == Calculate(offer, amount)
       <==> IsPercentageOf(offer, amount, cents)
  {
    RoundHalfEvenIsNearest(amount * offer.percentage.coefficient, 100 * Pow10(offer.percentage.scale), cents);
  }

  lemma GapOfSum(x: nat, y: nat, den: nat, q: nat)
    ensures Gap(x, den, q) == Gap(y, den, q) + 2 * x - 2 * y
  {
  }

  /** What the context rounds away is at most half a unit of the last digit it keeps. */
  lemma ContextRoundError(c: nat)
    ensures 0 - Pow10(Excess(c)) <= 2 * c - 2 * ContextRound(c) <= Pow10(Excess(c))
  {
    RoundedIsNearest(c, Pow10(Excess(c)));
  }

  /**
   * For every percentage and amount the cashback is within half a cent, plus half a unit of the last digit
   * that the context keeps, of amount times percentage.
   */
  lemma PercentageErrorIsBounded(offer: Offer, amount: nat)
    requires offer.fixedAmount.None?
    ensures var product, den := amount * offer.percentage.coefficient, 100 * Pow10(offer.percentage.scale);
            var unit := Pow10(Excess(product));
            0 - den - unit <= Gap(product, den, Calculate(offer, amount)) <= den + unit
  {
    var product, den := amount * offer.percentage.coefficient, 100 * Pow10(offer.percentage.scale);
    var cents := Calculate(offer, amount);
    ContextRoundError(product);
    RoundHalfEvenIsNearest(ContextRound(product), den, cents);
    GapOfSum(product, ContextRound(product), den, cents);
  }

  // ----- percentages of 17 digits: rounded twice

  /**
   * The context has turned the product into a half-cent `kept` that it was not, and rounding to even then
   * takes the cent on the wrong side.
   */
  predicate FalseTie(product: nat, kept: nat, den: nat)
    requires den > 0
  {
    2 * (kept % den) == den && if kept / den % 2 == 0 then product > kept else product < kept
  }

  lemma QuotientIs(y: nat, den: nat, q: nat, r: nat)
    requires den > 0 && y == q * den + r && r < den
    ensures y / den == q && y % den == r
  {
    MulGap(q, y / den, den);
    MulGap(y / den, q, den);
  }

  /** Half-cents are multiples of the unit that is kept, so rounding to units crosses none of them. */
  lemma TwiceRounded(x: nat, y: nat, den: nat, unit: nat, q: nat, r: nat, half: nat)
    requires y == q * den + r && r < den && den == 2 * half && 0 < unit <= half
    requires r < half ==> r + unit <= half
    requires r > half ==> r >= half + unit
    requires 0 - unit <= 2 * x - 2 * y <= unit
    ensures r != half ==> IsNearestEven(x, den, RoundHalfEven(y, den))
    ensures r == half ==>
      (IsNearestEven(x, den, RoundHalfEven(y, den)) <==> if q % 2 == 0 then x <= y else x >= y)
  {
    QuotientIs(y, den, q, r);
    GapOfQuotient(y, den, q, r);
    GapOfSum(x, y, den, q);
    GapOfSum(x, y, den, q + 1);
  }

  lemma UnitsApart(t: int, m: int, unit: nat)
    ensures t < m ==> t * unit + unit <= m * unit
    ensures t > m ==> t * unit >= m * unit + unit
    ensures t == m ==> t * unit == m * unit
  {
    if t < m {
      MulMonotone(t + 1, m, unit);
      Distribute(t, 1, unit);
    } else if t > m {
      MulMonotone(m + 1, t, unit);
      Distribute(m, 1, unit);
    }
  }

  /** What is kept is a number of units, and so is what remains after taking out multiples of `den`. */
  lemma RemainderInUnits(n: nat, unit: nat, den: nat, q: nat, r: nat, m: nat)
    requires n * unit == q * den + r && den == 2 * (m * unit)
    ensures r == (n - 2 * (q * m)) * unit
  {
    assert q * den == 2 * (q * m) * unit by {
      Associate(q, m, unit);
      Associate(2, q * m, unit);
    }
    Distribute(n, 0 - 2 * (q * m), unit);
  }

  lemma HundredIsPow10(scale: nat)
    ensures Pow10(scale + 2) == 100 * Pow10(scale)
  {
    assert Pow10(scale + 1) == 10 * Pow10(scale);
  }

  predicate AtMost(x: Decimal, y: Decimal) {
    x.coefficient * Pow10(y.scale) <= y.coefficient * Pow10(x.scale)
  }

  lemma AtMostHundred(percentage: Decimal)
    requires AtMost(percentage, Decimal(100, 0))
    ensures percentage.coefficient <= 100 * Pow10(percentage.scale)
  {
    assert Pow10(0) == 1;
  }

  lemma ProductOfPercentage(amount: nat, c: nat, scale: nat)
    requires c <= 100 * Pow10(scale)
    ensures Digits(amount * c) <= Digits(amount) + scale + 2
  {
    HundredIsPow10(scale);
    MulMonotone(c, Pow10(scale + 2), amount);
    DigitsMonotone(amount * c, amount * Pow10(scale + 2));
    if amount > 0 {
      DigitsShift(amount, scale + 2);
    }
  }

  lemma FewExcessDigits(amount: nat, c: nat, scale: nat)
    requires c <= 100 * Pow10(scale) && Digits(amount) < PRECISION
    ensures Excess(amount * c) <= scale + 1
  {
    ProductOfPercentage(amount, c, scale);
  }

  lemma DenominatorInUnits(scale: nat, excess: nat)
    requires excess <= scale + 1
    ensures 100 * Pow10(scale) == 2 * ((5 * Pow10(scale + 1 - excess)) * Pow10(excess))
  {
    Pow10Adds(scale + 1 - excess, excess);
    Associate(5, Pow10(scale + 1 - excess), Pow10(excess));
  }

  /** With at most 100 percent of an amount of 27 digits a half-cent is a number of kept units. */
  lemma HalfCentInUnits(offer: Offer, amount: nat)
    requires AtMost(offer.percentage, Decimal(100, 0)) && Digits(amount) < PRECISION
    ensures var scale := offer.percentage.scale;
            var excess := Excess(amount * offer.percentage.coefficient);
            && excess <= scale + 1
            && 100 * Pow10(scale) == 2 * ((5 * Pow10(scale + 1 - excess)) * Pow10(excess))
  {
    AtMostHundred(offer.percentage);
    FewExcessDigits(amount, offer.percentage.coefficient, offer.percentage.scale);
    DenominatorInUnits(offer.percentage.scale, Excess(amount * offer.percentage.coefficient));
  }

  lemma QuotientAndRemainder(y: nat, den: nat) returns (q: nat, r: nat)
    requires den > 0
    ensures y == q * den + r && r < den
  {
    q, r := y / den, y % den;
  }

  lemma TwiceRoundedIff(x: nat, y: nat, n: nat, den: nat, unit: nat, m: nat, q: nat, r: nat)
    requires y == n * unit && den == 2 * (m * unit) && unit > 0 && m > 0
    requires y == q * den + r && r < den
    requires 0 - unit <= 2 * x - 2 * y <= unit
    ensures IsNearestEven(x, den, RoundHalfEven(y, den)) <==> !FalseTie(x, y, den)
  {
    QuotientIs(y, den, q, r);
    MulMonotone(1, m, unit);
    RemainderInUnits(n, unit, den, q, r, m);
    UnitsApart(n - 2 * (q * m), m, unit);
    TwiceRounded(x, y, den, unit, q, r, m * unit);
  }

  lemma ContextKeepsUnits(c: nat)
    ensures ContextRound(c) == RoundHalfEven(c, Pow10(Excess(c))) * Pow10(Excess(c))
  {
  }

  lemma NearestUnlessFalseTie(product: nat, kept: nat, den: nat, unit: nat, m: nat, n: nat)
    requires kept == n * unit && den == 2 * (m * unit) && unit > 0 && m > 0 && den > 0
    requires 0 - unit <= 2 * product - 2 * kept <= unit
    ensures IsNearestEven(product, den, RoundHalfEven(kept, den)) <==> !FalseTie(product, kept, den)
  {
    var q, r := QuotientAndRemainder(kept, den);
    TwiceRoundedIff(product, kept, n, den, unit, m, q, r);
  }

  lemma ContextUnits(offer: Offer, amount: nat) returns (unit: nat, m: nat, n: nat)
    requires AtMost(offer.percentage, Decimal(100, 0)) && Digits(amount) < PRECISION
    ensures var product := amount * offer.percentage.coefficient;
            && ContextRound(product) == n * unit
            && 0 - unit <= 2 * product - 2 * ContextRound(product) <= unit
    ensures 100 * Pow10(offer.percentage.scale) == 2 * (m * unit) && unit > 0 && m > 0
  {
    var product, scale := amount * offer.percentage.coefficient, offer.percentage.scale;
    HalfCentInUnits(offer, amount);
    unit, m := Pow10(Excess(product)), 5 * Pow10(scale + 1 - Excess(product));
    n := RoundHalfEven(product, unit);
    ContextRoundError(product);
    ContextKeepsUnits(product);
  }

  /**
   * For every offer of at most 100 percent and every amount of up to 27 digits, the cashback is the nearest
   * cent with ties to even exactly when the context makes no false tie.
   */
  lemma PercentageCashbackIsNearestIff(offer: Offer, amount: nat)
    requires offer.fixedAmount.None? && AtMost(offer.percentage, Decimal(100, 0)) && Digits(amount) < PRECISION
    ensures IsPercentageOf(offer, amount, Calculate(offer, amount))
       <==> !FalseTie(amount * offer.percentage.coefficient, ContextRound(amount * offer.percentage.coefficient),
                      100 * Pow10(offer.percentage.scale))
  {
    var product := amount * offer.percentage.coefficient;
    var unit, m, n := ContextUnits(offer, amount);
    NearestUnlessFalseTie(product, ContextRound(product), 100 * Pow10(offer.percentage.scale), unit, m, n);
  }

  /** 16.115727272727273 percent, as `str` prints that float. */
  const LONG_PERCENTAGE := Offer(Decimal(16115727272727273, 15), None)

  lemma PowersOfTen()
    ensures Pow10(15) == 1000000000000000
    ensures Pow10(28) == 10000000000000000000000000000
  {
    assert Pow10(4) == 10000 by {
      assert Pow10(2) == 100;
    }
    assert Pow10(7) == 10000000;
    Pow10Adds(7, 7);
    Pow10Adds(14, 14);
    assert Pow10(15) == 10 * Pow10(14);
  }

  lemma LongProduct()
    ensures ContextRound(16115727272549999999999999997) == 16115727272550000000000000000
  {
    PowersOfTen();
    DigitsBound(16115727272549999999999999997, 29);
    DigitsRange(16115727272549999999999999997);
    if Digits(16115727272549999999999999997) <= 28 {
      Pow10Monotone(Digits(16115727272549999999999999997), 28);
    }
    assert Pow10(1) == 10 * Pow10(0);
  }

  /** 9999999999.89 at that percentage pays a cent more than the nearest: the product has 29 digits. */
  lemma PercentageCashbackCanMissNearest()
    ensures Calculate(LONG_PERCENTAGE, 999999999989) == 161157272726
    ensures IsPercentageOf(LONG_PERCENTAGE, 999999999989, 161157272725)
  {
    LongProduct();
    PowersOfTen();
    RoundHalfEvenIsNearest(16115727272550000000000000000, 100000000000000000, 161157272726);
    assert Gap(16115727272549999999999999997, 100000000000000000, 161157272725) == 99999999999999994;
  }

  /** A fixed offer pays the cent nearest to its amount, whatever the purchase. */
  lemma FixedCashbackIsNearest(offer: Offer, amount: nat, cents: nat)
    requires offer.fixedAmount.Some?
    ensures cents == Calculate(offer, amount)
       <==> IsNearestEven(offer.fixedAmount.value.coefficient * 100, Pow10(offer.fixedAmount.value.scale), cents)
  {
    RoundHalfEvenIsNearest(offer.fixedAmount.value.coefficient * 100, Pow10(offer.fixedAmount.value.scale), cents);
  }

  lemma CrossProducts(a: nat, c: nat, p: nat, a': nat, c': nat, p': nat)
    requires a <= a' && c * p' <= c' * p
    ensures (a * c) * p' <= (a' * c') * p
  {
    MulMonotone(a, a', c * p');
    MulMonotone(c * p', c' * p, a');
    Associate(a, c, p');
    Associate(a', c', p);
  }

  lemma HundredTimes(c: nat, p: nat)
    ensures c * (100 * p) == 100 * (c * p)
  {
  }

  /** Products in the order of their rationals stay in that order when the context rounds them. */
  lemma ContextRoundMonotoneRational(x: nat, i: nat, y: nat, j: nat)
    requires x * Pow10(j) <= y * Pow10(i)
    ensures ContextRound(x) * (100 * Pow10(j)) <= ContextRound(y) * (100 * Pow10(i))
  {
    ContextRoundShifts(x, j);
    ContextRoundShifts(y, i);
    ContextRoundMonotone(x * Pow10(j), y * Pow10(i));
    HundredTimes(ContextRound(x), Pow10(j));
    HundredTimes(ContextRound(y), Pow10(i));
  }

  /** More money or a higher percentage never pays less, whatever the context rounds away. */
  lemma CashbackIsMonotone(offer: Offer, amount: nat, offer': Offer, amount': nat)
    requires offer.fixedAmount.None? && offer'.fixedAmount.None?
    requires amount <= amount' && AtMost(offer.percentage, offer'.percentage)
    ensures Calculate(offer, amount) <= Calculate(offer', amount')
  {
    var c, c' := offer.percentage.coefficient, offer'.percentage.coefficient;
    var i, i' := offer.percentage.scale, offer'.percentage.scale;
    CrossProducts(amount, c, Pow10(i), amount', c', Pow10(i'));
    ContextRoundMonotoneRational(amount * c, i, amount' * c', i');
    RoundHalfEvenMonotoneRational(
      ContextRound(amount * c), 100 * Pow10(i), ContextRound(amount' * c'), 100 * Pow10(i'));
  }

  /** At 100 percent the cashback is the amount, when that fits the context. */
  lemma WholeAmountBack(amount: nat)
    requires Digits(amount) <= PRECISION
    ensures Calculate(Offer(Decimal(100, 0), None), amount) == amount
  {
    assert Pow10(2) == 100 by {
      assert Pow10(1) == 10 * Pow10(0);
    }
    ContextRoundShifts(amount, 2);
    assert ContextRound(amount * 100) == amount * 100;
    assert 100 * Pow10(0) == 100;
    RoundedMultiple(amount, 100);
  }

  /** An offer of at most 100 percent never pays more than the purchase. */
  lemma CashbackIsWithinAmount(offer: Offer, amount: nat)
    requires offer.fixedAmount.None? && AtMost(offer.percentage, Decimal(100, 0)) && Digits(amount) <= PRECISION
    ensures Calculate(offer, amount) <= amount
  {
    WholeAmountBack(amount);
    CashbackIsMonotone(offer, amount, Offer(Decimal(100, 0), None), amount);
  }

  // ----- splitting a purchase

  function Total(parts: seq<nat>): nat {
    if parts == [] then 0 else Total(parts[..|parts| - 1]) + parts[|parts| - 1]
  }

  /** The cashback of each part, as if it had been a purchase of its own. */
  function Cashbacks(offer: Offer, parts: seq<nat>): seq<nat> {
    seq(|parts|, i requires 0 <= i < |parts| => Calculate(offer, parts[i]))
  }

  lemma GapAdds(x: nat, y: nat, den: nat, p: nat, q: nat)
    ensures Gap(x + y, den, p + q) == Gap(x, den, p) + Gap(y, den, q)
  {
    Distribute(p, q, den);
  }

  /** One more part adds at most one unit of `den` to the accumulated gap. */
  lemma PartGap(x: nat, y: nat, den: nat, n: nat, s: nat, q: nat)
    requires IsNearestEven(y, den, q)
    requires 0 - n * den <= Gap(x, den, s) <= n * den
    requires Gap(x, den, s) == n * den || Gap(x, den, s) == 0 - n * den ==> s % 2 == 0
    ensures 0 - (n + 1) * den <= Gap(x + y, den, s + q) <= (n + 1) * den
    ensures Gap(x + y, den, s + q) == (n + 1) * den || Gap(x + y, den, s + q) == 0 - (n + 1) * den
        ==> (s + q) % 2 == 0
  {
    GapAdds(x, y, den, s, q);
    Distribute(n, 1, den);
  }

  /** Twice the parts' accumulated rounding error; at either extreme every part was a tie rounded to even. */
  lemma {:induction false} PartsGap(c: nat, den: nat, parts: seq<nat>, qs: seq<nat>)
    requires |qs| == |parts|
    requires forall i :: 0 <= i < |parts| ==> IsNearestEven(parts[i] * c, den, qs[i])
    ensures 0 - |parts| * den <= Gap(Total(parts) * c, den, Total(qs)) <= |parts| * den
    ensures Gap(Total(parts) * c, den, Total(qs)) == |parts| * den
         || Gap(Total(parts) * c, den, Total(qs)) == 0 - |parts| * den
        ==> Total(qs) % 2 == 0
  {
    var n := |parts| - 1;
    if n >= 0 {
      PartsGap(c, den, parts[..n], qs[..n]);
      Distribute(Total(parts[..n]), parts[n], c);
      PartGap(Total(parts[..n]) * c, parts[n] * c, den, n, Total(qs[..n]), qs[n]);
    } else {
      assert Total(parts) * c == 0 && Total(qs) * den == 0;
    }
  }

  lemma {:induction false} PartIsAtMostTotal(parts: seq<nat>, i: nat)
    requires i < |parts|
    ensures parts[i] <= Total(parts)
  {
    if i == |parts| - 1 {
    } else {
      PartIsAtMostTotal(parts[..|parts| - 1], i);
    }
  }

  lemma PartIsExact(offer: Offer, parts: seq<nat>, i: nat)
    requires Exact(offer, Total(parts)) && i < |parts|
    ensures Exact(offer, parts[i])
  {
    PartIsAtMostTotal(parts, i);
    MulMonotone(parts[i], Total(parts), offer.percentage.coefficient);
    DigitsMonotone(parts[i] * offer.percentage.coefficient, Total(parts) * offer.percentage.coefficient);
  }

  lemma GapDifference(x: nat, den: nat, s: nat, q: nat)
    ensures Gap(x, den, q) - Gap(x, den, s) == 2 * (s - q) * den
  {
    assert 2 * (s - q) * den == 2 * (s * den) - 2 * (q * den);
  }

  lemma Remainder3(n: int, d: int)
    requires n == 4 * d + 3
    ensures n % 4 == 3
  {
  }

  lemma EvenDifference(n: nat, x: nat, y: nat)
    requires x % 2 == 0 && y % 2 == 0 && n + 1 == 2 * (x - y)
    ensures n % 4 == 3
  {
    var a, b := x / 2, y / 2;
    assert x == 2 * a && y == 2 * b;
    Remainder3(n, a - b - 1);
  }

  /** When the two gaps add up to their largest sum, each is at its own end, where both integers are even. */
  lemma EvenEnds(error: int, n: nat, gs: int, gq: int, width: int, den: int, s: nat, q: nat)
    requires error == 2 * (s - q)
    requires 0 - width <= gs <= width && 0 - den <= gq <= den
    requires error == n + 1 ==> gq - gs == width + den
    requires error == -(n + 1) ==> gq - gs == 0 - (width + den)
    requires gs == width || gs == 0 - width ==> s % 2 == 0
    requires gq == den || gq == 0 - den ==> q % 2 == 0
    ensures error == n + 1 || error == -(n + 1) ==> n % 4 == 3
  {
    if error == n + 1 {
      EvenDifference(n, s, q);
    } else if error == -(n + 1) {
      EvenDifference(n, q, s);
    }
  }

  lemma ScaledBound(x: int, y: int, den: int)
    requires den > 0 && 0 - y * den <= x * den <= y * den
    ensures -y <= x <= y
    ensures x == -y ==> x * den == 0 - y * den
  {
    MulGap(y, x, den);
    MulGap(x, -y, den);
    assert (-y) * den == 0 - y * den;
  }

  /** Two integers whose distances to the same rational are bounded are themselves close. */
  lemma GapsBoundError(x: nat, den: nat, n: nat, s: nat, q: nat)
    requires den > 0 && IsNearestEven(x, den, q)
    requires 0 - n * den <= Gap(x, den, s) <= n * den
    requires Gap(x, den, s) == n * den || Gap(x, den, s) == 0 - n * den ==> s % 2 == 0
    ensures -(n + 1) <= 2 * (s - q) <= n + 1
    ensures 2 * (s - q) == n + 1 || 2 * (s - q) == -(n + 1) ==> n % 4 == 3
  {
    GapDifference(x, den, s, q);
    Distribute(n, 1, den);
    ScaledBound(2 * (s - q), n + 1, den);
    EvenEnds(2 * (s - q), n, Gap(x, den, s), Gap(x, den, q), n * den, den, s, q);
  }

  lemma RoundedPartsError(offer: Offer, parts: seq<nat>, qs: seq<nat>, q: nat)
    requires |qs| == |parts|
    requires forall i :: 0 <= i < |parts| ==> IsPercentageOf(offer, parts[i], qs[i])
    requires IsPercentageOf(offer, Total(parts), q)
    ensures -(|parts| + 1) <= 2 * (Total(qs) - q) <= |parts| + 1
    ensures 2 * (Total(qs) - q) == |parts| + 1 || 2 * (Total(qs) - q) == -(|parts| + 1) ==> |parts| % 4 == 3
  {
    var den := 100 * Pow10(offer.percentage.scale);
    PartsGap(offer.percentage.coefficient, den, parts, qs);
    GapsBoundError(Total(parts) * offer.percentage.coefficient, den, |parts|, Total(qs), q);
  }

  /**
   * Splitting a purchase into n parts moves its percentage cashback by at most (n + 1) / 2 cents, and by
   * exactly that much only when n leaves remainder 3 on division by 4.
   */
  lemma SplittingError(offer: Offer, parts: seq<nat>)
    requires Exact(offer, Total(parts))
    ensures var error := Total(Cashbacks(offer, parts)) - Calculate(offer, Total(parts));
            && -(|parts| + 1) <= 2 * error <= |parts| + 1
            && (2 * error == |parts| + 1 || 2 * error == -(|parts| + 1) ==> |parts| % 4 == 3)
  {
    forall i | 0 <= i < |parts|
      ensures IsPercentageOf(offer, parts[i], Cashbacks(offer, parts)[i])
    {
      PartIsExact(offer, parts, i);
      PercentageCashbackIsNearest(offer, parts[i], Cashbacks(offer, parts)[i]);
    }
    PercentageCashbackIsNearest(offer, Total(parts), Calculate(offer, Total(parts)));
    RoundedPartsError(offer, parts, Cashbacks(offer, parts), Calculate(offer, Total(parts)));
  }

  /** Twice the distance from `q` to `x / den`, in units of `1 / den`, is at most `width`. */
  ghost predicate Near(x: nat, den: nat, width: nat, q: nat) {
    0 - width <= Gap(x, den, q) <= width
  }

  /** The same with `n` such widths. */
  ghost predicate NearBy(x: nat, den: nat, width: nat, n: nat, q: nat) {
    0 - n * width <= Gap(x, den, q) <= n * width
  }

  lemma PartWidth(x: nat, y: nat, z: nat, den: nat, width: nat, n: nat, s: nat, q: nat)
    requires NearBy(x, den, width, n, s) && Near(y, den, width, q) && z == x + y
    ensures NearBy(z, den, width, n + 1, s + q)
  {
    GapAdds(x, y, den, s, q);
    Distribute(n, 1, width);
  }

  lemma NoParts(c: nat, den: nat, width: nat)
    ensures NearBy(Total([]) * c, den, width, 0, Total([]))
  {
    assert Total([]) * c == 0 && Total([]) * den == 0;
  }

  lemma {:induction false} PartsWidth(c: nat, den: nat, width: nat, parts: seq<nat>, qs: seq<nat>)
    requires |qs| == |parts|
    requires forall i :: 0 <= i < |parts| ==> Near(parts[i] * c, den, width, qs[i])
    ensures NearBy(Total(parts) * c, den, width, |parts|, Total(qs))
  {
    if parts == [] {
      NoParts(c, den, width);
    } else {
      var n := |parts| - 1;
      PartsWidth(c, den, width, parts[..n], qs[..n]);
      Distribute(Total(parts[..n]), parts[n], c);
      PartWidth(Total(parts[..n]) * c, parts[n] * c, Total(parts) * c, den, width, n, Total(qs[..n]), qs[n]);
    }
  }

  lemma PartUnit(product: nat, total: nat)
    requires product <= total
    ensures Pow10(Excess(product)) <= Pow10(Excess(total))
  {
    DigitsMonotone(product, total);
    Pow10Monotone(Excess(product), Excess(total));
  }

  lemma PartError(offer: Offer, parts: seq<nat>, i: nat, width: nat)
    requires offer.fixedAmount.None? && i < |parts|
    requires width == 100 * Pow10(offer.percentage.scale) + Pow10(Excess(Total(parts) * offer.percentage.coefficient))
    ensures Near(parts[i] * offer.percentage.coefficient, 100 * Pow10(offer.percentage.scale), width,
                 Calculate(offer, parts[i]))
  {
    PercentageErrorIsBounded(offer, parts[i]);
    PartIsAtMostTotal(parts, i);
    MulMonotone(parts[i], Total(parts), offer.percentage.coefficient);
    PartUnit(parts[i] * offer.percentage.coefficient, Total(parts) * offer.percentage.coefficient);
  }

  lemma PartErrors(offer: Offer, parts: seq<nat>, width: nat)
    requires offer.fixedAmount.None?
    requires width == 100 * Pow10(offer.percentage.scale) + Pow10(Excess(Total(parts) * offer.percentage.coefficient))
    ensures forall i :: 0 <= i < |parts| ==>
      Near(parts[i] * offer.percentage.coefficient, 100 * Pow10(offer.percentage.scale), width,
           Cashbacks(offer, parts)[i])
  {
    forall i | 0 <= i < |parts|
      ensures Near(parts[i] * offer.percentage.coefficient, 100 * Pow10(offer.percentage.scale), width,
                   Cashbacks(offer, parts)[i])
    {
      PartError(offer, parts, i, width);
    }
  }

  lemma WidthsAddUp(x: nat, den: nat, width: nat, n: nat, s: nat, q: nat)
    requires NearBy(x, den, width, n, s) && Near(x, den, width, q)
    ensures 0 - (n + 1) * width <= 2 * (s - q) * den <= (n + 1) * width
  {
    GapDifference(x, den, s, q);
    Distribute(n, 1, width);
  }

  lemma WidePartsError(c: nat, den: nat, width: nat, parts: seq<nat>, qs: seq<nat>, q: nat)
    requires |qs| == |parts|
    requires forall i :: 0 <= i < |parts| ==> Near(parts[i] * c, den, width, qs[i])
    requires Near(Total(parts) * c, den, width, q)
    ensures 0 - (|parts| + 1) * width <= 2 * (Total(qs) - q) * den <= (|parts| + 1) * width
  {
    PartsWidth(c, den, width, parts, qs);
    WidthsAddUp(Total(parts) * c, den, width, |parts|, Total(qs), q);
  }

  /**
   * For every percentage, of any number of digits, splitting a purchase into n parts moves its cashback by at
   * most (n + 1) / 2 times `width`: a cent and a unit of the last digit that the context keeps of the whole product.
   */
  lemma SplittingErrorIsBounded(offer: Offer, parts: seq<nat>, width: nat)
    requires offer.fixedAmount.None?
    requires width == 100 * Pow10(offer.percentage.scale) + Pow10(Excess(Total(parts) * offer.percentage.coefficient))
    ensures var error := Total(Cashbacks(offer, parts)) - Calculate(offer, Total(parts));
            0 - (|parts| + 1) * width <= 2 * error * (100 * Pow10(offer.percentage.scale)) <= (|parts| + 1) * width
  {
    PartErrors(offer, parts, width);
    PercentageErrorIsBounded(offer, Total(parts));
    WidePartsError(offer.percentage.coefficient, 100 * Pow10(offer.percentage.scale), width, parts,
      Cashbacks(offer, parts), Calculate(offer, Total(parts)));
  }

  // ----- the bound is attained

  const HALF := Offer(Decimal(50, 0), None)

  function OneCentParts(n: nat): seq<nat> {
    seq(n, i => 1)
  }

  lemma {:induction false} TotalOfOnes(n: nat, x: nat)
    ensures Total(seq(n, i => x)) == n * x
  {
    if n == 0 {
    } else {
      TotalOfOnes(n - 1, x);
      assert seq(n, i => x)[..n - 1] == seq(n - 1, i => x);
    }
  }

  lemma TieRoundsUp(k: nat)
    ensures RoundHalfEven((4 * k + 3) * 50, 100) == 2 * k + 2
  {
    RoundHalfEvenIsNearest((4 * k + 3) * 50, 100, 2 * k + 2);
  }

  lemma HalfOf(n: nat)
    requires Exact(HALF, n)
    ensures Calculate(HALF, n) == RoundHalfEven(n * 50, 100)
  {
    assert Pow10(0) == 1;
  }

  lemma HalfCentsPayNothing(n: nat)
    ensures Cashbacks(HALF, OneCentParts(n)) == seq(n, i => 0)
  {
    DigitsBound(1 * 50, 2);
    HalfOf(1);
    assert RoundHalfEven(1 * 50, 100) == 0;
    var paid := Cashbacks(HALF, OneCentParts(n));
    assert forall i :: 0 <= i < n ==> paid[i] == Calculate(HALF, OneCentParts(n)[i]) == Calculate(HALF, 1);
  }

  /** At 50 percent, n == 4k + 3 purchases of one cent pay nothing and lose exactly (n + 1) / 2 cents. */
  lemma SplittingErrorIsAttained(k: nat, n: nat)
    requires n == 4 * k + 3 && Exact(HALF, n)
    ensures Total(OneCentParts(n)) == n
    ensures 2 * (Calculate(HALF, n) - Total(Cashbacks(HALF, OneCentParts(n)))) == n + 1
  {
    TotalOfOnes(n, 1);
    TotalOfOnes(n, 0);
    HalfOf(n);
    TieRoundsUp(k);
    HalfCentsPayNothing(n);
  }
}
