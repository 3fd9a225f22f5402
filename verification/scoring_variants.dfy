/**
 * Where the calculator's scorer and the batch scorer agree and where they
 * part: the unit of the ratios, the clamping of the safety term, the
 * treatment of a zero revenue, and the scale of the rating.
 */
module ScoringVariants {
  import opened Base
  import ClientScoring
  import BatchScoring

  /** A calculator form and an extracted ticker that carry the same
      statement figures (the form's current asset and liability being the
      ticker's total assets and liabilities, as the batch script reads them). */
  predicate SameFigures(inp: ClientScoring.CalculatorInput, t: BatchScoring.TickerData) {
    inp.revenue == t.revenue && inp.costOfGoodsSold == t.costOfGoodsSold &&
    inp.netIncome == t.netIncome && inp.shareHolderEquity == t.shareHolderEquity &&
    inp.sgaAndA == t.sgaAndA && inp.totalDebt == t.totalDebt &&
    inp.currentAsset == t.totalAssets && inp.currentLiability == t.totalLiabilities &&
    inp.cashAndCashEquivalents == t.cashAndCashEquivalents
  }

  /** On the same figures the batch margins and returns are the
      calculator's fractions times 100, and the plain ratios coincide. */
  lemma PercentVersusFraction(inp: ClientScoring.CalculatorInput, t: BatchScoring.TickerData)
    requires SameFigures(inp, t)
    ensures BatchScoring.MetricsOf(t).grossProfitMargin == 100.0 * ClientScoring.RatiosOf(inp).grossProfitMargin
    ensures BatchScoring.MetricsOf(t).returnOnEquity == 100.0 * ClientScoring.RatiosOf(inp).returnOnEquity
    ensures t.revenue != 0.0 ==>
      BatchScoring.MetricsOf(t).sgaToRevenue == Some(100.0 * ClientScoring.RatiosOf(inp).sgaToRevenue)
    ensures BatchScoring.MetricsOf(t).debtToEquity == ClientScoring.RatiosOf(inp).debtToEquity
    ensures BatchScoring.MetricsOf(t).currentRatio == ClientScoring.RatiosOf(inp).currentRatio
    ensures BatchScoring.MetricsOf(t).cashRatio == ClientScoring.RatiosOf(inp).cashRatio
  {
    var r := ClientScoring.RatiosOf(inp);
    var m := BatchScoring.MetricsOf(t);
    if t.revenue != 0.0 {
      assert m.grossProfitMargin == 100.0 * r.grossProfitMargin by {
        assert (100.0 * r.grossProfitMargin) * t.revenue == 100.0 * (r.grossProfitMargin * t.revenue);
      }
      assert m.sgaToRevenue.value == 100.0 * r.sgaToRevenue by {
        assert (100.0 * r.sgaToRevenue) * t.revenue == 100.0 * (r.sgaToRevenue * t.revenue);
      }
    }
    if t.shareHolderEquity != 0.0 {
      assert m.returnOnEquity == 100.0 * r.returnOnEquity by {
        assert (100.0 * r.returnOnEquity) * t.shareHolderEquity == 100.0 * (r.returnOnEquity * t.shareHolderEquity);
      }
    }
  }

  /** The rescaled thresholds 40 / 20 / 30 and 0.4 / 0.2 / 0.3 take the same
      decisions on the same figures, except SG&A when revenue is 0: the
      calculator's 0 earns the point, the batch scorer's None does not. */
  lemma ThresholdsAgree(inp: ClientScoring.CalculatorInput, t: BatchScoring.TickerData)
    requires SameFigures(inp, t)
    ensures BatchScoring.MetricsOf(t).grossProfitMargin > 40.0 <==> ClientScoring.RatiosOf(inp).grossProfitMargin > 0.4
    ensures BatchScoring.MetricsOf(t).returnOnEquity > 20.0 <==> ClientScoring.RatiosOf(inp).returnOnEquity > 0.2
    ensures t.revenue != 0.0 ==>
      (BatchScoring.MetricsOf(t).sgaToRevenue.value < 30.0 <==> ClientScoring.RatiosOf(inp).sgaToRevenue < 0.3)
    ensures t.revenue == 0.0 ==>
      ClientScoring.RatiosOf(inp).sgaToRevenue < 0.3 && BatchScoring.MetricsOf(t).sgaToRevenue.None?
  {
    PercentVersusFraction(inp, t);
  }

  /** The safety terms agree on every non-negative margin; on a negative
      one the calculator's goes below 0 and the batch scorer's stays at 0. */
  lemma SafetyTermsCompared(m: real)
    ensures m >= 0.0 ==> ClientScoring.SafetyTerm(m) == BatchScoring.Normalize(Some(m))
    ensures m < 0.0 ==> ClientScoring.SafetyTerm(m) < BatchScoring.Normalize(Some(m)) == 0.0
  {
  }

  /** With EPS present and the calculator's growth rate at the scripts'
      8, both scorers compute the same intrinsic value. */
  lemma IntrinsicValuesAgree(eps: real)
    ensures BatchScoring.IntrinsicValue(Some(eps)) == ClientScoring.IntrinsicValue(eps, BatchScoring.ExpectedGrowth)
  {
  }

  /** The calculator leaves a negative intrinsic value's margin defined;
      the batch scorer drops it. */
  lemma NegativeValueMargins(iv: real, price: real)
    requires iv < 0.0
    ensures ClientScoring.MarginOfSafety(iv, price).Some? && BatchScoring.MarginOfSafety(iv, price).None?
  {
  }

  /**
   * When the two scorers see the same blend `x` and the same
   * non-negative margin, the batch rating is the calculator's times 100;
   * with a negative margin the batch rating is the higher one.
   */
  lemma RatingScale(m: real, x: real)
    ensures m >= 0.0 ==>
      (BatchScoring.Normalize(Some(m)) + x) * 50.0 == 100.0 * ClientScoring.RatingOf(Some(m), x).value
    ensures m < 0.0 ==>
      (BatchScoring.Normalize(Some(m)) + x) * 50.0 > 100.0 * ClientScoring.RatingOf(Some(m), x).value
  {
    SafetyTermsCompared(m);
  }

  /**
   * On the same figures, with the same ROIC decision, a present quick
   * ratio, an ROA given as a percentage and a non-zero revenue, the two
   * scorers reach the same blend `x`.
   */
  lemma CombinedScoresAgree(inp: ClientScoring.CalculatorInput, t: BatchScoring.TickerData)
    requires SameFigures(inp, t) && t.revenue != 0.0
    requires BatchScoring.Roic(t) > 30.0 <==> ClientScoring.RatiosOf(inp).roic > 30.0
    requires t.quickRatio == Some(inp.quickRatio)
    requires t.roa == Some(100.0 * inp.roa)
    ensures BatchScoring.CombinedScore(BatchScoring.MetricsOf(t)) == ClientScoring.CombinedScore(ClientScoring.RatiosOf(inp))
  {
    ThresholdsAgree(inp, t);
    PercentVersusFraction(inp, t);
    var r := ClientScoring.RatiosOf(inp);
    var m := BatchScoring.MetricsOf(t);
    assert BatchScoring.QualityPoints(m) == ClientScoring.QualityPoints(r);
    assert BatchScoring.LiquidityPoints(m) == ClientScoring.LiquidityPoints(r);
    assert BatchScoring.LeveragePoints(m) == ClientScoring.LeveragePoints(r);
  }

  /** With zero revenue and everything else failing, the calculator scores
      one quality point where the batch scorer scores none. */
  lemma ZeroRevenueDiverges(inp: ClientScoring.CalculatorInput, t: BatchScoring.TickerData)
    requires SameFigures(inp, t) && t.revenue == 0.0
    requires !(ClientScoring.RatiosOf(inp).returnOnEquity > 0.2) && !(ClientScoring.RatiosOf(inp).roic > 30.0)
    requires !(BatchScoring.Roic(t) > 30.0)
    ensures ClientScoring.QualityPoints(ClientScoring.RatiosOf(inp)) == 1
    ensures BatchScoring.QualityPoints(BatchScoring.MetricsOf(t)) == 0
  {
    ThresholdsAgree(inp, t);
  }
}
