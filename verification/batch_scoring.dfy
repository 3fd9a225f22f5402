/**
 * The batch scorer of the market tables: the per-ticker loop body of
 * SP500SQL.py (and, line for line the same, of NasdaqSQL.py) lifted out as
 * a function over the already-extracted figures, the same body written as
 * the script writes it, and the loop that collects one row per ticker.
 * Ratios are percentages here, missing figures are None, the safety term
 * is clamped to [0, 1] and the rating is scaled by 50.
 */
module BatchScoring {
  import opened Base
  import ClientScoring

  /** The growth rate and the corporate bond yield the scripts fix. */
  const ExpectedGrowth: real := 8.0
  const CorporateBondYield: real := 4.6
  /** The tax rate used when the quote carries none. */
  const DefaultTaxRate: real := 0.21

  /**
   * What the script extracts for one ticker. A statement line that is
   * missing reads as 0; the quote fields may be None. `totalAssets` is
   * read both as the script's `current_asset` and as `total_assets`, and
   * `totalLiabilities` is its `current_liability`.
   */
  datatype TickerData = TickerData(
    revenue: real,
    costOfGoodsSold: real,
    netIncome: real,
    shareHolderEquity: real,
    sgaAndA: real,
    totalDebt: real,
    totalAssets: real,
    totalLiabilities: real,
    cashAndCashEquivalents: real,
    earningsPerShare: Option<real>,
    stockPrice: Option<real>,
    quickRatio: Option<real>,
    roa: Option<real>,
    operatingIncome: real,
    taxRate: Option<real>,
    currentLiabilities: real)

  /** The scored ratios; the margins and returns are percentages. */
  datatype Metrics = Metrics(
    grossProfitMargin: real,
    returnOnEquity: real,
    roic: real,
    sgaToRevenue: Option<real>,
    debtToEquity: real,
    currentRatio: real,
    cashRatio: real,
    quickRatio: Option<real>,
    roa: Option<real>)

  /** One row of the market table, in the order of its columns. */
  datatype Row = Row(
    company: string,
    stockPrice: Option<real>,
    intrinsicValue: real,
    marginOfSafety: Option<real>,
    rating: real,
    metrics: Metrics)

  /** Total assets less current liabilities less cash. */
  function InvestedCapital(t: TickerData): (ic: real)
    ensures ic == 0.0 <==> t.totalAssets == t.currentLiabilities + t.cashAndCashEquivalents
    ensures t.currentLiabilities >= 0.0 && t.cashAndCashEquivalents >= 0.0 ==> ic <= t.totalAssets
  {
    t.totalAssets - t.currentLiabilities - t.cashAndCashEquivalents
  }

  /** Operating income after tax. */
  function Nopat(t: TickerData): (nopat: real)
    ensures t.taxRate.None? ==> nopat == t.operatingIncome * 0.79
  {
    t.operatingIncome * (1.0 - t.taxRate.GetOr(DefaultTaxRate))
  }

  /** Return on invested capital as a percentage, 0 when the invested
      capital is 0. */
  function Roic(t: TickerData): (roic: real)
    ensures InvestedCapital(t) == 0.0 ==> roic == 0.0
    ensures InvestedCapital(t) != 0.0 ==> roic * InvestedCapital(t) == Nopat(t) * 100.0
  {
    Quotient(Nopat(t), InvestedCapital(t)) * 100.0
  }

  /** The ratios of one ticker; each is 0, or None for SG&A, when its
      denominator is 0. */
  function MetricsOf(t: TickerData): (m: Metrics)
    ensures t.revenue == 0.0 ==> m.grossProfitMargin == 0.0 && m.sgaToRevenue.None?
    ensures t.revenue != 0.0 ==>
      m.grossProfitMargin * t.revenue == (t.revenue - t.costOfGoodsSold) * 100.0 &&
      m.sgaToRevenue.Some? && m.sgaToRevenue.value * t.revenue == t.sgaAndA * 100.0
    ensures t.shareHolderEquity == 0.0 ==> m.returnOnEquity == 0.0 && m.debtToEquity == 0.0
    ensures t.shareHolderEquity != 0.0 ==>
      m.returnOnEquity * t.shareHolderEquity == t.netIncome * 100.0 &&
      m.debtToEquity * t.shareHolderEquity == t.totalDebt
    ensures t.totalLiabilities == 0.0 ==> m.currentRatio == 0.0 && m.cashRatio == 0.0
    ensures t.totalLiabilities != 0.0 ==>
      m.currentRatio * t.totalLiabilities == t.totalAssets &&
      m.cashRatio * t.totalLiabilities == t.cashAndCashEquivalents
    ensures m.roic == Roic(t) && m.quickRatio == t.quickRatio && m.roa == t.roa
  {
    Metrics(
      Quotient(t.revenue - t.costOfGoodsSold, t.revenue) * 100.0,
      Quotient(t.netIncome, t.shareHolderEquity) * 100.0,
      Roic(t),
      if t.revenue != 0.0 then Some(t.sgaAndA / t.revenue * 100.0) else None,
      Quotient(t.totalDebt, t.shareHolderEquity),
      Quotient(t.totalAssets, t.totalLiabilities),
      Quotient(t.cashAndCashEquivalents, t.totalLiabilities),
      t.quickRatio,
      t.roa)
  }

  /** The quality counter `a`; a missing SG&A ratio earns no point. */
  function QualityPoints(m: Metrics): (a: nat)
    ensures a <= 4
    ensures a == 4 <==>
      m.grossProfitMargin > 40.0 && m.returnOnEquity > 20.0 && m.roic > 30.0 &&
      m.sgaToRevenue.Some? && m.sgaToRevenue.value < 30.0
  {
    (if m.grossProfitMargin > 40.0 then 1 else 0) +
    (if m.returnOnEquity > 20.0 then 1 else 0) +
    (if m.roic > 30.0 then 1 else 0) +
    (if m.sgaToRevenue.Some? && m.sgaToRevenue.value < 30.0 then 1 else 0)
  }

  /** The liquidity counter `c`; a missing quick ratio earns no point. */
  function LiquidityPoints(m: Metrics): (c: nat)
    ensures c <= 3
    ensures c == 3 <==>
      m.currentRatio > 1.5 && m.cashRatio > 1.0 && m.quickRatio.Some? && m.quickRatio.value > 1.0
  {
    (if m.currentRatio > 1.5 then 1 else 0) +
    (if m.cashRatio > 1.0 then 1 else 0) +
    (if m.quickRatio.Some? && m.quickRatio.value > 1.0 then 1 else 0)
  }

  /** The counter `b`: the debt point, the liquidity bonus (the same
      1 / 0.5 / 0.25 / 0 mapping as the calculator's) and the ROA point. */
  function LeveragePoints(m: Metrics): (b: real)
    ensures 0.0 <= b <= 3.0
    ensures b == 3.0 <==>
      m.debtToEquity < 0.8 && LiquidityPoints(m) == 3 && m.roa.Some? && m.roa.value > 10.0
  {
    (if m.debtToEquity < 0.8 then 1.0 else 0.0) +
    ClientScoring.LiquidityBonus(LiquidityPoints(m)) +
    (if m.roa.Some? && m.roa.value > 10.0 then 1.0 else 0.0)
  }

  /** `x = (a + b) / 8`, within [0, 7/8]. */
  function CombinedScore(m: Metrics): (x: real)
    ensures 0.0 <= x <= 0.875
    ensures x == 0.875 <==> QualityPoints(m) == 4 && LeveragePoints(m) == 3.0
  {
    (QualityPoints(m) as real + LeveragePoints(m)) / 8.0
  }

  /** Graham's formula with g = 8 and a 4.6 bond yield; 0 without an EPS. */
  function IntrinsicValue(earningsPerShare: Option<real>): (iv: real)
    ensures earningsPerShare.None? ==> iv == 0.0
    ensures iv > 0.0 <==> earningsPerShare.Some? && earningsPerShare.value > 0.0
  {
    match earningsPerShare
    case None => 0.0
    case Some(eps) => eps * (8.5 + 2.0 * ExpectedGrowth) * 4.4 / CorporateBondYield
  }

  /** `(IV - price) / IV`, None unless the intrinsic value is positive. */
  function MarginOfSafety(intrinsicValue: real, stockPrice: real): (m: Option<real>)
    ensures m.None? <==> intrinsicValue <= 0.0
    ensures m.Some? ==> m.value * intrinsicValue == intrinsicValue - stockPrice
    ensures m.Some? ==> (m.value < 0.0 <==> stockPrice > intrinsicValue)
  {
    if intrinsicValue > 0.0 then Some((intrinsicValue - stockPrice) / intrinsicValue) else None
  }

  /** The margin of safety clamped to [0, 0.4] and scaled to [0, 1]. */
  function Normalize(margin: Option<real>): (n: real)
    ensures 0.0 <= n <= 1.0
    ensures margin.None? ==> n == 0.0
    ensures margin.Some? && margin.value >= 0.4 ==> n == 1.0
    ensures margin.Some? && margin.value <= 0.0 ==> n == 0.0
    ensures margin.Some? && 0.0 < margin.value < 0.4 ==> n * 0.4 == margin.value
  {
    match margin
    case None => 0.0
    case Some(v) => if v >= 0.4 then 1.0 else if v <= 0.0 then 0.0 else v / 0.4
  }

  /**
   * The loop body as a function: None when the script raises and skips
   * the ticker, which happens exactly when a positive intrinsic value
   * meets a missing stock price.
   */
  function Score(company: string, t: TickerData): (row: Option<Row>)
    ensures row.None? <==> IntrinsicValue(t.earningsPerShare) > 0.0 && t.stockPrice.None?
    ensures row.Some? ==>
      row.value.company == company && row.value.stockPrice == t.stockPrice &&
      row.value.metrics == MetricsOf(t) &&
      0.0 <= row.value.rating <= 93.75 &&
      (row.value.marginOfSafety.Some? <==> row.value.intrinsicValue > 0.0)
    ensures row.Some? && row.value.marginOfSafety.None? ==> row.value.rating <= 43.75
  {
    var m := MetricsOf(t);
    var iv := IntrinsicValue(t.earningsPerShare);
    if iv > 0.0 && t.stockPrice.None? then None
    else
      var margin := if iv > 0.0 then MarginOfSafety(iv, t.stockPrice.value) else None;
      Some(Row(company, t.stockPrice, iv, margin, (Normalize(margin) + CombinedScore(m)) * 50.0, m))
  }

  /** A missing SG&A ratio, quick ratio or ROA scores exactly as a present
      value that misses its threshold. */
  lemma MissingScoresAsFailing(m: Metrics)
    ensures QualityPoints(m.(sgaToRevenue := None)) == QualityPoints(m.(sgaToRevenue := Some(30.0)))
    ensures LiquidityPoints(m.(quickRatio := None)) == LiquidityPoints(m.(quickRatio := Some(1.0)))
    ensures LeveragePoints(m.(quickRatio := None)) == LeveragePoints(m.(quickRatio := Some(1.0)))
    ensures LeveragePoints(m.(roa := None)) == LeveragePoints(m.(roa := Some(10.0)))
  {
  }

  /** A missing figure never raises a counter: dropping one never adds a point. */
  lemma MissingNeverScores(m: Metrics)
    ensures QualityPoints(m.(sgaToRevenue := None)) <= QualityPoints(m)
    ensures LiquidityPoints(m.(quickRatio := None)) <= LiquidityPoints(m)
    ensures LeveragePoints(m.(quickRatio := None)) <= LeveragePoints(m)
    ensures LeveragePoints(m.(roa := None)) <= LeveragePoints(m)
  {
  }

  /** A larger margin of safety never lowers the normalised value. */
  lemma NormalizeMonotone(m1: real, m2: real)
    requires m1 <= m2
    ensures Normalize(Some(m1)) <= Normalize(Some(m2))
  {
  }

  /**
   * The ratio part of the loop body as the script writes it: the ROIC
   * stored into `data`, then each percentage guarded by its denominator.
   */
  method ComputeMetrics(t: TickerData) returns (m: Metrics)
    ensures m == MetricsOf(t)
  {
    var operatingIncome := t.operatingIncome;
    var taxRate := if t.taxRate.Some? then t.taxRate.value else 0.21;
    var nopat := operatingIncome * (1.0 - taxRate);
    var investedCapital := t.totalAssets - t.currentLiabilities - t.cashAndCashEquivalents;
    var roic := if investedCapital != 0.0 then nopat / investedCapital else 0.0;
    var dataRoic := roic * 100.0;

    var grossProfitMargin := if t.revenue != 0.0 then (t.revenue - t.costOfGoodsSold) / t.revenue * 100.0 else 0.0;
    var returnOnEquity := if t.shareHolderEquity != 0.0 then t.netIncome / t.shareHolderEquity * 100.0 else 0.0;
    var sgaToRevenue: Option<real> := None;
    if t.revenue != 0.0 {
      sgaToRevenue := Some(t.sgaAndA / t.revenue * 100.0);
    }
    var debtEquity := if t.shareHolderEquity != 0.0 then t.totalDebt / t.shareHolderEquity else 0.0;
    var currentRatio := if t.totalLiabilities != 0.0 then t.totalAssets / t.totalLiabilities else 0.0;
    var cashRatio := if t.totalLiabilities != 0.0 then t.cashAndCashEquivalents / t.totalLiabilities else 0.0;
    m := Metrics(grossProfitMargin, returnOnEquity, dataRoic, sgaToRevenue,
                 debtEquity, currentRatio, cashRatio, t.quickRatio, t.roa);
  }

  /** The counters `a`, `b`, `c`, incremented threshold by threshold. */
  method CountPoints(m: Metrics) returns (a: nat, b: real, c: nat)
    ensures a == QualityPoints(m) && a <= 4
    ensures c == LiquidityPoints(m) && c <= 3
    ensures b == LeveragePoints(m) && 0.0 <= b <= 3.0
  {
    a, b, c := 0, 0.0, 0;
    if m.grossProfitMargin > 40.0 { a := a + 1; }
    if m.returnOnEquity > 20.0 { a := a + 1; }
    if m.roic > 30.0 { a := a + 1; }
    if m.sgaToRevenue.Some? && m.sgaToRevenue.value < 30.0 { a := a + 1; }

    if m.debtToEquity < 0.8 { b := b + 1.0; }
    if m.currentRatio > 1.5 { c := c + 1; }
    if m.cashRatio > 1.0 { c := c + 1; }
    if m.quickRatio.Some? && m.quickRatio.value > 1.0 { c := c + 1; }

    if c == 3 { b := b + 1.0; }
    else if c == 2 { b := b + 0.5; }
    else if c == 1 { b := b + 0.25; }

    if m.roa.Some? && m.roa.value > 10.0 { b := b + 1.0; }
  }

  /**
   * One pass of the loop body: the ratios, the counters, the intrinsic
   * value, the margin, its normalisation and the rating. A positive
   * intrinsic value with no stock price makes the margin's subtraction
   * raise; the handler skips the ticker, which is the None result.
   */
  method ScoreTicker(company: string, t: TickerData) returns (row: Option<Row>)
    ensures row == Score(company, t)
  {
    var m := ComputeMetrics(t);
    var a, b, c := CountPoints(m);
    var x := (a as real + b) / 8.0;

    var intrinsicValue := 0.0;
    if t.earningsPerShare.Some? {
      intrinsicValue := t.earningsPerShare.value * (8.5 + 2.0 * ExpectedGrowth) * 4.4 / CorporateBondYield;
    }

    var marginOfSafety: Option<real> := None;
    if intrinsicValue > 0.0 {
      if t.stockPrice.None? {
        return None;
      }
      marginOfSafety := Some((intrinsicValue - t.stockPrice.value) / intrinsicValue);
    }

    var normalizedValue := 0.0;
    if marginOfSafety.Some? {
      if marginOfSafety.value >= 0.4 {
        normalizedValue := 1.0;
      } else if marginOfSafety.value <= 0.0 {
        normalizedValue := 0.0;
      } else {
        normalizedValue := marginOfSafety.value / 0.4;
      }
    }

    var rating := (normalizedValue + x) * 50.0;
    row := Some(Row(company, t.stockPrice, intrinsicValue, marginOfSafety, rating, m));
  }

  /** The ticker's loop body runs to its insert. */
  predicate Kept(ticker: (string, TickerData))
    ensures !Kept(ticker) <==>
      IntrinsicValue(ticker.1.earningsPerShare) > 0.0 && ticker.1.stockPrice.None?
  {
    Score(ticker.0, ticker.1).Some?
  }

  /** The row one ticker adds to the table: none when it is skipped. */
  function RowsOf(ticker: (string, TickerData)): (rows: seq<Row>)
    ensures |rows| == if Kept(ticker) then 1 else 0
    ensures forall row :: row in rows <==> Score(ticker.0, ticker.1) == Some(row)
  {
    match Score(ticker.0, ticker.1)
    case None => []
    case Some(row) => [row]
  }

  /** The rows a list of tickers produces, in order, skipped tickers left out. */
  function Scored(tickers: seq<(string, TickerData)>): (table: seq<Row>)
    ensures |table| <= |tickers|
  {
    if tickers == [] then []
    else Scored(tickers[..|tickers| - 1]) + RowsOf(tickers[|tickers| - 1])
  }

  /** The script's loop: score each ticker and insert its row unless the
      body raised. */
  method ProcessTickers(tickers: seq<(string, TickerData)>) returns (table: seq<Row>)
    ensures table == Scored(tickers)
  {
    table := [];
    for i := 0 to |tickers|
      invariant table == Scored(tickers[..i])
    {
      assert tickers[..i + 1][..i] == tickers[..i];
      var row := ScoreTicker(tickers[i].0, tickers[i].1);
      assert RowsOf(tickers[i]) == if row.Some? then [row.value] else [];
      if row.Some? {
        table := table + [row.value];
      }
    }
    assert tickers[..|tickers|] == tickers;
  }

  /** The table holds exactly the rows of the tickers that were not skipped. */
  lemma {:induction false} ScoredRows(tickers: seq<(string, TickerData)>, row: Row)
    ensures row in Scored(tickers) <==>
      exists i :: 0 <= i < |tickers| && Score(tickers[i].0, tickers[i].1) == Some(row)
  {
    if tickers != [] {
      var front := tickers[..|tickers| - 1];
      var last := tickers[|tickers| - 1];
      ScoredRows(front, row);
      assert row in Scored(tickers) <==> row in Scored(front) || row in RowsOf(last);
      if exists i :: 0 <= i < |front| && Score(front[i].0, front[i].1) == Some(row) {
        var i :| 0 <= i < |front| && Score(front[i].0, front[i].1) == Some(row);
        assert tickers[i] == front[i];
      }
      if exists i :: 0 <= i < |tickers| && Score(tickers[i].0, tickers[i].1) == Some(row) {
        var i :| 0 <= i < |tickers| && Score(tickers[i].0, tickers[i].1) == Some(row);
        if i < |front| { assert front[i] == tickers[i]; }
      }
    }
  }

  /** One row per ticker exactly when no ticker is skipped. */
  lemma {:induction false} ScoredLength(tickers: seq<(string, TickerData)>)
    ensures |Scored(tickers)| <= |tickers|
    ensures |Scored(tickers)| == |tickers| <==> forall i :: 0 <= i < |tickers| ==> Kept(tickers[i])
  {
    if tickers != [] {
      var front := tickers[..|tickers| - 1];
      ScoredLength(front);
      assert |Scored(tickers)| == |Scored(front)| + |RowsOf(tickers[|tickers| - 1])|;
      assert forall i :: 0 <= i < |front| ==> front[i] == tickers[i];
    }
  }

  /** Every rating in the table lies in [0, 93.75]. */
  lemma TableRatingsBounded(tickers: seq<(string, TickerData)>, row: Row)
    requires row in Scored(tickers)
    ensures 0.0 <= row.rating <= 93.75
  {
    ScoredRows(tickers, row);
  }
}
