/**
 * The calculator page's valuation scorer (`calculateAndSubmit` in
 * nextjs/pages/Calculator.js): seven guarded ratios as fractions, a
 * Graham-style intrinsic value, a margin of safety, three threshold
 * counters and the blended rating. Form fields are taken as already
 * parsed numbers.
 */
module ClientScoring {
  import opened Base

  /** The calculator form, every numeric field read with `parseFloat`. */
  datatype CalculatorInput = CalculatorInput(
    companyName: string,
    stockPrice: real,
    earningsPerShare: real,
    growthRate: real,
    revenue: real,
    costOfGoodsSold: real,
    netIncome: real,
    shareHolderEquity: real,
    sgaAndA: real,
    totalDebt: real,
    currentAsset: real,
    currentLiability: real,
    cashAndCashEquivalents: real,
    quickRatio: real,
    roa: real)

  /** The ratio fields of the request body, all fractions except `roic`. */
  datatype Ratios = Ratios(
    grossProfitMargin: real,
    returnOnEquity: real,
    roic: real,
    sgaToRevenue: real,
    debtToEquity: real,
    currentRatio: real,
    cashRatio: real,
    quickRatio: real,
    roa: real)

  /**
   * The body posted to the calculation history. Where JavaScript's
   * arithmetic leaves the margin of safety undefined (a division by a zero
   * intrinsic value gives NaN or -Infinity) it and the rating are None.
   */
  datatype Submission = Submission(
    companyName: string,
    stockPrice: real,
    ratios: Ratios,
    intrinsicValue: real,
    marginOfSafety: Option<real>,
    rating: Option<real>)

  /** The seven derived ratios; each is 0 when its denominator is 0. */
  function RatiosOf(inp: CalculatorInput): (r: Ratios)
    ensures inp.revenue == 0.0 ==> r.grossProfitMargin == 0.0 && r.sgaToRevenue == 0.0
    ensures inp.shareHolderEquity == 0.0 ==> r.returnOnEquity == 0.0 && r.roic == 0.0 && r.debtToEquity == 0.0
    ensures inp.currentLiability == 0.0 ==> r.currentRatio == 0.0 && r.cashRatio == 0.0
    ensures inp.revenue != 0.0 ==>
      r.grossProfitMargin * inp.revenue == inp.revenue - inp.costOfGoodsSold &&
      r.sgaToRevenue * inp.revenue == inp.sgaAndA
    ensures inp.shareHolderEquity != 0.0 ==>
      r.returnOnEquity * inp.shareHolderEquity == inp.netIncome &&
      r.debtToEquity * inp.shareHolderEquity == inp.totalDebt &&
      r.roic == r.returnOnEquity * 100.0
    ensures inp.currentLiability != 0.0 ==>
      r.currentRatio * inp.currentLiability == inp.currentAsset &&
      r.cashRatio * inp.currentLiability == inp.cashAndCashEquivalents
    ensures r.quickRatio == inp.quickRatio && r.roa == inp.roa
  {
    Ratios(
      Quotient(inp.revenue - inp.costOfGoodsSold, inp.revenue),
      Quotient(inp.netIncome, inp.shareHolderEquity),
      Quotient(inp.netIncome, inp.shareHolderEquity) * 100.0,
      Quotient(inp.sgaAndA, inp.revenue),
      Quotient(inp.totalDebt, inp.shareHolderEquity),
      Quotient(inp.currentAsset, inp.currentLiability),
      Quotient(inp.cashAndCashEquivalents, inp.currentLiability),
      inp.quickRatio,
      inp.roa)
  }

  /** The quality counter `a`: one point per threshold met. */
  function QualityPoints(r: Ratios): (a: nat)
    ensures a <= 4
    ensures a == 4 <==>
      r.grossProfitMargin > 0.4 && r.returnOnEquity > 0.2 && r.roic > 30.0 && r.sgaToRevenue < 0.3
    ensures a == 0 <==>
      !(r.grossProfitMargin > 0.4 || r.returnOnEquity > 0.2 || r.roic > 30.0 || r.sgaToRevenue < 0.3)
  {
    (if r.grossProfitMargin > 0.4 then 1 else 0) +
    (if r.returnOnEquity > 0.2 then 1 else 0) +
    (if r.roic > 30.0 then 1 else 0) +
    (if r.sgaToRevenue < 0.3 then 1 else 0)
  }

  /** The liquidity counter `c`. */
  function LiquidityPoints(r: Ratios): (c: nat)
    ensures c <= 3
    ensures c == 3 <==> r.currentRatio > 1.5 && r.cashRatio > 1.0 && r.quickRatio > 1.0
    ensures c == 0 <==> !(r.currentRatio > 1.5 || r.cashRatio > 1.0 || r.quickRatio > 1.0)
  {
    (if r.currentRatio > 1.5 then 1 else 0) +
    (if r.cashRatio > 1.0 then 1 else 0) +
    (if r.quickRatio > 1.0 then 1 else 0)
  }

  /** The part of `b` that `c` contributes: 1, 0.5, 0.25 or 0 for c = 3, 2, 1, 0. */
  function LiquidityBonus(c: nat): (bonus: real)
    ensures 0.0 <= bonus <= 1.0
    ensures bonus == 1.0 <==> c == 3
    ensures bonus == 0.0 <==> c == 0 || c > 3
  {
    if c == 3 then 1.0 else if c == 2 then 0.5 else if c == 1 then 0.25 else 0.0
  }

  /** The leverage counter `b`: the debt point, the liquidity bonus and the ROA point. */
  function LeveragePoints(r: Ratios): (b: real)
    ensures 0.0 <= b <= 3.0
    ensures b == 3.0 <==>
      r.debtToEquity < 0.8 && LiquidityPoints(r) == 3 && r.roa > 0.1
  {
    (if r.debtToEquity < 0.8 then 1.0 else 0.0) +
    LiquidityBonus(LiquidityPoints(r)) +
    (if r.roa > 0.1 then 1.0 else 0.0)
  }

  /** `x = (a + b) / 8`; at most 7/8, since a + b is at most 7. */
  function CombinedScore(r: Ratios): (x: real)
    ensures 0.0 <= x <= 0.875
    ensures x == 0.875 <==> QualityPoints(r) == 4 && LeveragePoints(r) == 3.0
  {
    (QualityPoints(r) as real + LeveragePoints(r)) / 8.0
  }

  /** Graham's formula with the bond yield fixed at 4.6: `EPS * (8.5 + 2g) * 4.4 / 4.6`. */
  function IntrinsicValue(earningsPerShare: real, growthRate: real): (iv: real)
    ensures iv == 0.0 <==> earningsPerShare == 0.0 || growthRate == -4.25
    ensures earningsPerShare > 0.0 && growthRate > -4.25 ==> iv > 0.0
  {
    var factor := 8.5 + 2.0 * growthRate;
    assert factor == 0.0 <==> growthRate == -4.25;
    assert earningsPerShare * factor == 0.0 <==> earningsPerShare == 0.0 || factor == 0.0;
    earningsPerShare * factor * 4.4 / 4.6
  }

  /** `(IV - price) / IV`, undefined when the intrinsic value is 0. */
  function MarginOfSafety(intrinsicValue: real, stockPrice: real): (m: Option<real>)
    ensures m.None? <==> intrinsicValue == 0.0
    ensures m.Some? ==> m.value * intrinsicValue == intrinsicValue - stockPrice
  {
    if intrinsicValue != 0.0 then Some((intrinsicValue - stockPrice) / intrinsicValue) else None
  }

  /** The safety term of the rating: 1 from a margin of 0.4 up, margin / 0.4
      below it, and not clamped at 0. */
  function SafetyTerm(margin: real): (s: real)
    ensures margin >= 0.4 ==> s == 1.0
    ensures margin < 0.4 ==> s * 0.4 == margin
    ensures s <= 1.0
    ensures s < 0.0 <==> margin < 0.0
  {
    if margin >= 0.4 then 1.0 else margin / 0.4
  }

  /** `rating = safety * 0.5 + x * 0.5`, undefined with the margin. */
  function RatingOf(margin: Option<real>, x: real): (rating: Option<real>)
    ensures rating.None? <==> margin.None?
    ensures rating.Some? && x <= 0.875 ==> rating.value <= 0.5 + 0.4375
    ensures rating.Some? && margin.value >= 0.4 && x >= 0.0 ==> rating.value >= 0.5
  {
    match margin
    case None => None
    case Some(m) => Some(SafetyTerm(m) * 0.5 + x * 0.5)
  }

  /** The whole scoring of one calculator submission. */
  function Score(inp: CalculatorInput): (sub: Submission)
    ensures sub.companyName == inp.companyName && sub.stockPrice == inp.stockPrice
    ensures sub.ratios == RatiosOf(inp)
    ensures sub.marginOfSafety.None? <==> sub.intrinsicValue == 0.0
    ensures sub.rating.None? <==> sub.marginOfSafety.None?
    ensures sub.marginOfSafety.Some? ==>
      sub.marginOfSafety.value * sub.intrinsicValue == sub.intrinsicValue - inp.stockPrice
    ensures sub.rating.Some? ==> sub.rating.value <= 0.9375
  {
    var r := RatiosOf(inp);
    var iv := IntrinsicValue(inp.earningsPerShare, inp.growthRate);
    var m := MarginOfSafety(iv, inp.stockPrice);
    Submission(inp.companyName, inp.stockPrice, r, iv, m, RatingOf(m, CombinedScore(r)))
  }

  /** The guarded ratio assignments of `calculateAndSubmit`: every field of
      a zero-initialised record is overwritten only when its denominator is
      non-zero. */
  method FillRatios(inp: CalculatorInput) returns (r: Ratios)
    ensures r == RatiosOf(inp)
  {
    var grossProfitMargin, returnOnEquity, roic, sgaToRevenue := 0.0, 0.0, 0.0, 0.0;
    var debtToEquity, currentRatio, cashRatio := 0.0, 0.0, 0.0;

    if inp.revenue != 0.0 {
      grossProfitMargin := (inp.revenue - inp.costOfGoodsSold) / inp.revenue;
    }
    if inp.shareHolderEquity != 0.0 {
      returnOnEquity := inp.netIncome / inp.shareHolderEquity;
    }
    if inp.shareHolderEquity != 0.0 {
      roic := (inp.netIncome / inp.shareHolderEquity) * 100.0;
    }
    if inp.revenue != 0.0 {
      sgaToRevenue := inp.sgaAndA / inp.revenue;
    }
    if inp.shareHolderEquity != 0.0 {
      debtToEquity := inp.totalDebt / inp.shareHolderEquity;
    }
    if inp.currentLiability != 0.0 {
      currentRatio := inp.currentAsset / inp.currentLiability;
    }
    if inp.currentLiability != 0.0 {
      cashRatio := inp.cashAndCashEquivalents / inp.currentLiability;
    }
    r := Ratios(grossProfitMargin, returnOnEquity, roic, sgaToRevenue,
                debtToEquity, currentRatio, cashRatio, inp.quickRatio, inp.roa);
  }

  /** The counters of `calculateAndSubmit`, incremented threshold by threshold. */
  method CountPoints(r: Ratios) returns (a: nat, b: real, c: nat)
    ensures a == QualityPoints(r) && a <= 4
    ensures c == LiquidityPoints(r) && c <= 3
    ensures b == LeveragePoints(r) && 0.0 <= b <= 3.0
  {
    a, b, c := 0, 0.0, 0;
    if r.grossProfitMargin > 0.4 { a := a + 1; }
    if r.returnOnEquity > 0.2 { a := a + 1; }
    if r.roic > 30.0 { a := a + 1; }
    if r.sgaToRevenue < 0.3 { a := a + 1; }

    if r.debtToEquity < 0.8 { b := b + 1.0; }
    if r.currentRatio > 1.5 { c := c + 1; }
    if r.cashRatio > 1.0 { c := c + 1; }
    if r.quickRatio > 1.0 { c := c + 1; }

    if c == 3 { b := b + 1.0; }
    else if c == 2 { b := b + 0.5; }
    else if c == 1 { b := b + 0.25; }

    if r.roa > 0.1 { b := b + 1.0; }
  }

  /**
   * `calculateAndSubmit`: the ratios, the intrinsic value and margin of
   * safety, the counters, and the blended rating. The request itself and
   * the rounding to two decimals are left out.
   */
  method CalculateAndSubmit(inp: CalculatorInput) returns (sub: Submission)
    ensures sub == Score(inp)
  {
    var ratios := FillRatios(inp);

    var intrinsicValue := inp.earningsPerShare * (8.5 + 2.0 * inp.growthRate) * 4.4 / 4.6;
    assert intrinsicValue == IntrinsicValue(inp.earningsPerShare, inp.growthRate);
    var marginOfSafety: Option<real> := None;
    if intrinsicValue != 0.0 {
      marginOfSafety := Some((intrinsicValue - inp.stockPrice) / intrinsicValue);
    }
    assert marginOfSafety == MarginOfSafety(intrinsicValue, inp.stockPrice);

    var a, b, c := CountPoints(ratios);
    var x := (a as real + b) / 8.0;
    assert x == CombinedScore(ratios);

    var rating: Option<real> := None;
    if marginOfSafety.Some? {
      var m := marginOfSafety.value;
      rating := Some((if m >= 0.4 then 1.0 else m / 0.4) * 0.5 + x * 0.5);
    }
    assert rating == RatingOf(marginOfSafety, x);
    sub := Submission(inp.companyName, inp.stockPrice, ratios, intrinsicValue, marginOfSafety, rating);
  }

  /** The rating never exceeds 0.5 + 7/16, and a margin of at least 0.4
      guarantees at least 0.5. */
  lemma RatingBounds(inp: CalculatorInput)
    ensures Score(inp).rating.Some? ==> Score(inp).rating.value <= 0.9375
    ensures Score(inp).marginOfSafety.Some? && Score(inp).marginOfSafety.value >= 0.4 ==>
      Score(inp).rating.value >= 0.5
  {
  }

  /** A zero denominator earns points: zero revenue always meets the SG&A
      threshold, zero equity always meets the debt threshold, while the
      ratios over them score nothing. */
  lemma ZeroDenominatorsScore(inp: CalculatorInput)
    ensures inp.revenue == 0.0 ==>
      RatiosOf(inp).sgaToRevenue < 0.3 && !(RatiosOf(inp).grossProfitMargin > 0.4)
    ensures inp.shareHolderEquity == 0.0 ==>
      RatiosOf(inp).debtToEquity < 0.8 &&
      !(RatiosOf(inp).returnOnEquity > 0.2) && !(RatiosOf(inp).roic > 30.0)
  {
  }

  /** With the safety term unclamped, a margin below -0.35 pulls the rating
      below 0 whatever the counters, and only a negative margin can. */
  lemma NegativeRatingMargin(m: real, x: real)
    ensures m < -0.35 && x <= 0.875 ==> RatingOf(Some(m), x).value < 0.0
    ensures x >= 0.0 && RatingOf(Some(m), x).value < 0.0 ==> m < 0.0
  {
  }

  /** A price above `(1 + k)` times a positive intrinsic value leaves a
      margin below `-k`. */
  lemma MarginBelow(intrinsicValue: real, stockPrice: real, k: real)
    requires intrinsicValue > 0.0 && stockPrice > (1.0 + k) * intrinsicValue
    ensures MarginOfSafety(intrinsicValue, stockPrice).value < -k
  {
    var m := MarginOfSafety(intrinsicValue, stockPrice).value;
    assert (m + k) * intrinsicValue == intrinsicValue - stockPrice + k * intrinsicValue;
  }

  /** A stock priced above 1.35 times a positive intrinsic value is rated
      below 0, whatever its ratios. */
  lemma OverpricedRatesNegative(inp: CalculatorInput)
    requires IntrinsicValue(inp.earningsPerShare, inp.growthRate) > 0.0
    requires inp.stockPrice > 1.35 * IntrinsicValue(inp.earningsPerShare, inp.growthRate)
    ensures Score(inp).rating.Some? && Score(inp).rating.value < 0.0
  {
    var iv := IntrinsicValue(inp.earningsPerShare, inp.growthRate);
    var m := MarginOfSafety(iv, inp.stockPrice).value;
    MarginBelow(iv, inp.stockPrice, 0.35);
    NegativeRatingMargin(m, CombinedScore(RatiosOf(inp)));
  }

  /** A worked example: gross margin and ROE exactly at their thresholds do
      not score, c = 2 gives the half bonus, and the margin is capped at 1. */
  lemma WorkedExample()
    ensures var inp := CalculatorInput("A", 50.0, 5.0, 10.0, 100.0, 60.0, 20.0, 100.0, 10.0,
                                       50.0, 150.0, 100.0, 120.0, 1.2, 0.15);
      && QualityPoints(RatiosOf(inp)) == 1
      && LiquidityPoints(RatiosOf(inp)) == 2
      && LeveragePoints(RatiosOf(inp)) == 2.5
      && Score(inp).rating == Some(0.71875)
  {
    var inp := CalculatorInput("A", 50.0, 5.0, 10.0, 100.0, 60.0, 20.0, 100.0, 10.0,
                               50.0, 150.0, 100.0, 120.0, 1.2, 0.15);
    var r := RatiosOf(inp);
    assert r.grossProfitMargin == 0.4 && r.returnOnEquity == 0.2 && r.roic == 20.0;
    assert r.sgaToRevenue == 0.1 && r.debtToEquity == 0.5;
    assert r.currentRatio == 1.5 && r.cashRatio == 1.2;
    var iv := IntrinsicValue(5.0, 10.0);
    assert iv == 5.0 * 28.5 * 4.4 / 4.6;
    assert MarginOfSafety(iv, 50.0).value >= 0.4;
  }

  /** All-zero financials leave the intrinsic value 0, so the margin of
      safety and the rating are undefined rather than 0. */
  lemma AllZeroInputHasNoRating(name: string)
    ensures var inp := CalculatorInput(name, 0.0, 0.0, 0.0, 0.0, 0.0, 0.0, 0.0, 0.0,
                                       0.0, 0.0, 0.0, 0.0, 0.0, 0.0);
      && Score(inp).intrinsicValue == 0.0
      && Score(inp).marginOfSafety.None?
      && Score(inp).rating.None?
  {
  }
}
