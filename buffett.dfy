/**
  The Warren Buffett analyst: four scored checks (fundamentals, earnings
  consistency, moat, management quality), an owner-earnings discounted cash
  flow, the margin of safety against market capitalisation, and the signal.

  The explanatory strings of the source become `Note` tags; a figure the source
  interpolates into a note is carried as the tag's payload.
*/
module Buffett {
  import opened Wrappers
  import opened Finance
  import opened Verdict
  import FanIn

  datatype Note =
    // fundamentals
    | StrongRoe(roe: real) | WeakRoe(roe: real) | RoeUnavailable
    | ConservativeDebt | HighDebt(ratio: real) | DebtUnavailable
    | StrongMargins | WeakMargin(margin: real) | MarginUnavailable
    | GoodLiquidity | WeakLiquidity(ratio: real) | LiquidityUnavailable
    // consistency
    | InsufficientHistory | ConsistentGrowth | InconsistentGrowth
    | TotalGrowth(rate: real, periods: nat) | InsufficientEarnings
    // moat
    | InsufficientMoatData | StableRoe | UnstableRoe | StableMargins | UnstableMargins | SolidMoat
    // management
    | Repurchases | Dilution | NoSignificantIssuance | PaysDividends | NoDividends
    // intrinsic value
    | MissingComponents | OwnerEarningsCalculated | MissingShares | DiscountedCashFlow

  /** A check's points and its notes, in the order the source appends them. */
  datatype Scored = Scored(score: nat, notes: seq<Note>)

  /** A check that also reports the most points it can give. */
  datatype Capped = Capped(score: nat, maxScore: nat, notes: seq<Note>)

  // ---------------------------------------------------------------------------
  // Fundamentals

  predicate StrongRoeCheck(m: FinancialMetrics)
  { Truthy(m.returnOnEquity) && m.returnOnEquity.value > 0.15 }

  predicate LowDebtCheck(m: FinancialMetrics)
  { Truthy(m.debtToEquityRatio) && m.debtToEquityRatio.value < 0.5 }

  predicate StrongMarginCheck(m: FinancialMetrics)
  { Truthy(m.operatingMargin) && m.operatingMargin.value > 0.15 }

  predicate LiquidityCheck(m: FinancialMetrics)
  { Truthy(m.currentRatio) && m.currentRatio.value > 1.5 }

  /** `analyze_fundamentals`: 2 points each for ROE, debt and margins, 1 for
      liquidity; a missing or zero figure is reported as unavailable. */
  function Fundamentals(m: FinancialMetrics): (r: Scored)
    ensures r.score <= 7 && |r.notes| == 4
    ensures r.score == 7 <==>
      StrongRoeCheck(m) && LowDebtCheck(m) && StrongMarginCheck(m) && LiquidityCheck(m)
    ensures r.score == 0 <==>
      !StrongRoeCheck(m) && !LowDebtCheck(m) && !StrongMarginCheck(m) && !LiquidityCheck(m)
    ensures r.score % 2 == 1 <==> LiquidityCheck(m)
    ensures r.notes[0] == RoeUnavailable <==> !Truthy(m.returnOnEquity)
    ensures r.notes[1] == DebtUnavailable <==> !Truthy(m.debtToEquityRatio)
    ensures r.notes[2] == MarginUnavailable <==> !Truthy(m.operatingMargin)
    ensures r.notes[3] == LiquidityUnavailable <==> !Truthy(m.currentRatio)
    ensures r.notes[0].StrongRoe? <==> StrongRoeCheck(m)
    ensures r.notes[1] == ConservativeDebt <==> LowDebtCheck(m)
    ensures r.notes[2] == StrongMargins <==> StrongMarginCheck(m)
    ensures r.notes[3] == GoodLiquidity <==> LiquidityCheck(m)
  {
    var roe := m.returnOnEquity;
    var roeNote := if StrongRoeCheck(m) then StrongRoe(roe.value)
                   else if Truthy(roe) then WeakRoe(roe.value) else RoeUnavailable;
    var de := m.debtToEquityRatio;
    var debtNote := if LowDebtCheck(m) then ConservativeDebt
                    else if Truthy(de) then HighDebt(de.value) else DebtUnavailable;
    var om := m.operatingMargin;
    var marginNote := if StrongMarginCheck(m) then StrongMargins
                      else if Truthy(om) then WeakMargin(om.value) else MarginUnavailable;
    var cr := m.currentRatio;
    var liquidityNote := if LiquidityCheck(m) then GoodLiquidity
                         else if Truthy(cr) then WeakLiquidity(cr.value) else LiquidityUnavailable;
    Scored((if StrongRoeCheck(m) then 2 else 0) + (if LowDebtCheck(m) then 2 else 0) +
           (if StrongMarginCheck(m) then 2 else 0) + (if LiquidityCheck(m) then 1 else 0),
           [roeNote, debtNote, marginNote, liquidityNote])
  }

  /** A negative debt-to-equity ratio passes the `< 0.5` test, while a ratio of
      exactly zero is reported as unavailable and earns nothing. */
  lemma FundamentalsDebtEdges(m: FinancialMetrics)
    requires m.debtToEquityRatio == Some(0.0) || m.debtToEquityRatio == Some(-1.0)
    ensures m.debtToEquityRatio == Some(0.0) ==> Fundamentals(m).notes[1] == DebtUnavailable
    ensures m.debtToEquityRatio == Some(-1.0) ==> Fundamentals(m).notes[1] == ConservativeDebt
  {
  }

  /** Each check is worth its own points whatever the others give: setting the
      return on equity to any value `v` adds 2 points over a missing one exactly
      when `v` is above 15%. With the all-failing case of `Fundamentals` these four
      lemmas fix the score of every record. */
  lemma FundamentalsRoeWeight(m: FinancialMetrics, v: real)
    ensures Fundamentals(m.(returnOnEquity := Some(v))).score ==
            Fundamentals(m.(returnOnEquity := None)).score + (if v > 0.15 then 2 else 0)
  {
    var pass, fail := m.(returnOnEquity := Some(v)), m.(returnOnEquity := None);
    assert StrongRoeCheck(pass) == (v > 0.15) && !StrongRoeCheck(fail);
    assert LowDebtCheck(pass) == LowDebtCheck(fail);
    assert StrongMarginCheck(pass) == StrongMarginCheck(fail);
    assert LiquidityCheck(pass) == LiquidityCheck(fail);
  }

  /** A debt-to-equity ratio `v` adds 2 points over a missing one exactly when it
      is nonzero and below 0.5. */
  lemma FundamentalsDebtWeight(m: FinancialMetrics, v: real)
    ensures Fundamentals(m.(debtToEquityRatio := Some(v))).score ==
            Fundamentals(m.(debtToEquityRatio := None)).score + (if v != 0.0 && v < 0.5 then 2 else 0)
  {
    var pass, fail := m.(debtToEquityRatio := Some(v)), m.(debtToEquityRatio := None);
    assert LowDebtCheck(pass) == (v != 0.0 && v < 0.5) && !LowDebtCheck(fail);
    assert StrongRoeCheck(pass) == StrongRoeCheck(fail);
    assert StrongMarginCheck(pass) == StrongMarginCheck(fail);
    assert LiquidityCheck(pass) == LiquidityCheck(fail);
  }

  /** An operating margin `v` adds 2 points over a missing one exactly when it is
      above 15%. */
  lemma FundamentalsMarginWeight(m: FinancialMetrics, v: real)
    ensures Fundamentals(m.(operatingMargin := Some(v))).score ==
            Fundamentals(m.(operatingMargin := None)).score + (if v > 0.15 then 2 else 0)
  {
    var pass, fail := m.(operatingMargin := Some(v)), m.(operatingMargin := None);
    assert StrongMarginCheck(pass) == (v > 0.15) && !StrongMarginCheck(fail);
    assert StrongRoeCheck(pass) == StrongRoeCheck(fail);
    assert LowDebtCheck(pass) == LowDebtCheck(fail);
    assert LiquidityCheck(pass) == LiquidityCheck(fail);
  }

  /** A current ratio `v` adds 1 point over a missing one exactly when it is above 1.5. */
  lemma FundamentalsLiquidityWeight(m: FinancialMetrics, v: real)
    ensures Fundamentals(m.(currentRatio := Some(v))).score ==
            Fundamentals(m.(currentRatio := None)).score + (if v > 1.5 then 1 else 0)
  {
    var pass, fail := m.(currentRatio := Some(v)), m.(currentRatio := None);
    assert LiquidityCheck(pass) == (v > 1.5) && !LiquidityCheck(fail);
    assert StrongRoeCheck(pass) == StrongRoeCheck(fail);
    assert LowDebtCheck(pass) == LowDebtCheck(fail);
    assert StrongMarginCheck(pass) == StrongMarginCheck(fail);
  }

  // ---------------------------------------------------------------------------
  // Consistency

  /** Each value exceeds the next: with the newest period first, steady growth. */
  predicate StrictlyDecreasing(s: seq<real>)
  {
    forall i :: 0 <= i < |s| - 1 ==> s[i] > s[i + 1]
  }

  /** `analyze_consistency`: 3 points when the nonzero net incomes (at least four
      of them, over at least four periods) shrink from each period to the next. */
  function Consistency(h: seq<FinancialMetrics>): (r: Scored)
    ensures |h| < 4 ==> r == Scored(0, [InsufficientHistory])
    ensures r.score == 0 || r.score == 3
    ensures r.score == 3 <==>
      |h| >= 4 && |Nonzero(h, NetIncomeOf)| >= 4 && StrictlyDecreasing(Nonzero(h, NetIncomeOf))
    ensures |h| >= 4 && |Nonzero(h, NetIncomeOf)| < 4 ==> r.notes == [InsufficientEarnings]
    ensures |h| >= 4 && |Nonzero(h, NetIncomeOf)| >= 4 ==> |r.notes| == 2 && r.notes[1].TotalGrowth?
  {
    if |h| < 4 then Scored(0, [InsufficientHistory])
    else
      var e := Nonzero(h, NetIncomeOf);
      if |e| >= 4 then
        var growthNote := if StrictlyDecreasing(e) then ConsistentGrowth else InconsistentGrowth;
        // the last value is nonzero, so the total-growth note is always added
        var last := e[|e| - 1];
        var rate := (e[0] - last) / (if last < 0.0 then -last else last);
        Scored(if StrictlyDecreasing(e) then 3 else 0, [growthNote, TotalGrowth(rate, |e|)])
      else Scored(0, [InsufficientEarnings])
  }

  /** Four or more periods whose net incomes are all present, nonzero and
      shrinking from each period to the next earn the full 3 points. */
  lemma ConsistencyOfSteadyGrowth(h: seq<FinancialMetrics>)
    requires |h| >= 4
    requires forall k :: 0 <= k < |h| ==> Truthy(h[k].netIncome)
    requires forall k :: 0 <= k < |h| - 1 ==> OrZero(h[k].netIncome) > OrZero(h[k + 1].netIncome)
    ensures Consistency(h).score == 3
  {
    var e := Nonzero(h, NetIncomeOf);
    assert forall k :: 0 <= k < |h| ==> Truthy(NetIncomeOf(h[k]));
    assert forall k :: 0 <= k < |e| ==> e[k] == h[k].netIncome.value;
  }

  /** A single rise between two consecutive periods with present incomes loses the points. */
  lemma ConsistencyOfOneRise(h: seq<FinancialMetrics>, k: nat)
    requires |h| >= 4 && k + 1 < |h|
    requires forall j :: 0 <= j < |h| ==> Truthy(h[j].netIncome)
    requires OrZero(h[k].netIncome) <= OrZero(h[k + 1].netIncome)
    ensures Consistency(h).score == 0
  {
    var e := Nonzero(h, NetIncomeOf);
    assert forall j :: 0 <= j < |h| ==> Truthy(NetIncomeOf(h[j]));
    assert e[k] == h[k].netIncome.value && e[k + 1] == h[k + 1].netIncome.value;
  }

  // ---------------------------------------------------------------------------
  // Moat

  /** At least three values, all above 15%. */
  predicate Stable(xs: seq<real>)
  {
    |xs| >= 3 && forall i :: 0 <= i < |xs| ==> xs[i] > 0.15
  }

  /** `analyze_moat` on the collected ROE and margin lists. */
  function MoatOfLists(roes: seq<real>, margins: seq<real>): (r: Capped)
    ensures r.maxScore == 3
    ensures r.score == 0 || r.score == 1 || r.score == 3
    ensures r.score == 3 <==> Stable(roes) && Stable(margins)
    ensures r.score == 0 <==> !Stable(roes) && !Stable(margins)
  {
    var roeNotes := if |roes| >= 3 then [if Stable(roes) then StableRoe else UnstableRoe] else [];
    var marginNotes := if |margins| >= 3 then [if Stable(margins) then StableMargins else UnstableMargins] else [];
    var points := (if Stable(roes) then 1 else 0) + (if Stable(margins) then 1 else 0);
    if points == 2 then Capped(3, 3, roeNotes + marginNotes + [SolidMoat])
    else Capped(points, 3, roeNotes + marginNotes)
  }

  /** The moat check as a whole: fewer than three periods give nothing. */
  function MoatOf(h: seq<FinancialMetrics>): (r: Capped)
    ensures r.maxScore == 3 && r.score <= 3
    ensures |h| < 3 ==> r == Capped(0, 3, [InsufficientMoatData])
    ensures |h| >= 3 ==> r == MoatOfLists(Present(h, RoeOf), Present(h, OperatingMarginOf))
  {
    if |h| < 3 then Capped(0, 3, [InsufficientMoatData])
    else MoatOfLists(Present(h, RoeOf), Present(h, OperatingMarginOf))
  }

  /** `analyze_moat`: the loop collecting the present ROEs and margins. */
  method AnalyzeMoat(h: seq<FinancialMetrics>) returns (r: Capped)
    ensures r == MoatOf(h)
  {
    if |h| < 3 {
      return Capped(0, 3, [InsufficientMoatData]);
    }
    var roes: seq<real> := [];
    var margins: seq<real> := [];
    for i := 0 to |h|
      invariant roes == Present(h[..i], RoeOf)
      invariant margins == Present(h[..i], OperatingMarginOf)
    {
      assert h[..i + 1][..i] == h[..i];
      if h[i].returnOnEquity.Some? {
        roes := roes + [h[i].returnOnEquity.value];
      }
      if h[i].operatingMargin.Some? {
        margins := margins + [h[i].operatingMargin.value];
      }
    }
    assert h[..|h|] == h;
    r := MoatOfLists(roes, margins);
  }

  /** A field that is `None` on every record but the first yields at most one value. */
  lemma {:induction false} PresentOnlyFirst(h: seq<FinancialMetrics>, field: FinancialMetrics -> Option<real>)
    requires forall k :: 0 < k < |h| ==> field(h[k]).None?
    ensures |Present(h, field)| <= 1
  {
    if |h| > 1 {
      var front := h[..|h| - 1];
      assert forall k :: 0 < k < |front| ==> front[k] == h[k];
      PresentOnlyFirst(front, field);
    }
  }

  /** A history whose records after the first carry no operating margin never
      passes the margin test, so its moat scores at most 1. */
  lemma MoatWithMarginOnFirstOnly(h: seq<FinancialMetrics>)
    requires forall k :: 0 < k < |h| ==> h[k].operatingMargin.None?
    ensures MoatOf(h).score <= 1
  {
    assert forall k :: 0 < k < |h| ==> OperatingMarginOf(h[k]).None?;
    PresentOnlyFirst(h, OperatingMarginOf);
  }

  /** A freshly loaded history carries the operating margin on its first record
      only, so the margin test never passes and the moat scores at most 1. */
  lemma MoatOfFetchedHistory(d: TickerData, periods: nat)
    requires HistoricalMetrics(d, periods).Ok?
    ensures MoatOf(HistoricalMetrics(d, periods).value).score <= 1
  {
    HistoricalShape(d, periods);
    MoatWithMarginOnFirstOnly(HistoricalMetrics(d, periods).value);
  }

  // ---------------------------------------------------------------------------
  // Management quality

  predicate BuybackCheck(m: FinancialMetrics)
  { Truthy(m.issuanceOrPurchaseOfEquityShares) && m.issuanceOrPurchaseOfEquityShares.value < 0.0 }

  predicate DilutionCheck(m: FinancialMetrics)
  { Truthy(m.issuanceOrPurchaseOfEquityShares) && m.issuanceOrPurchaseOfEquityShares.value > 0.0 }

  predicate DividendCheck(m: FinancialMetrics)
  { Truthy(m.dividendsAndOtherCashDistributions) && m.dividendsAndOtherCashDistributions.value < 0.0 }

  /** `analyze_management_quality`: a point for net repurchases (a negative issuance
      figure) and a point for dividends paid (a negative outflow). */
  function ManagementQuality(m: FinancialMetrics): (r: Capped)
    ensures r.maxScore == 2 && r.score <= 2
    ensures r.score == 2 <==> BuybackCheck(m) && DividendCheck(m)
    ensures r.score == 0 <==> !BuybackCheck(m) && !DividendCheck(m)
    ensures Dilution in r.notes <==> DilutionCheck(m)
    ensures (Dilution in r.notes) != (NoSignificantIssuance in r.notes)
    ensures Repurchases in r.notes <==> BuybackCheck(m)
    ensures (PaysDividends in r.notes) != (NoDividends in r.notes)
  {
    var buyback := if BuybackCheck(m) then [Repurchases] else [];
    var issuance := if DilutionCheck(m) then [Dilution] else [NoSignificantIssuance];
    var dividends := if DividendCheck(m) then [PaysDividends] else [NoDividends];
    Capped((if BuybackCheck(m) then 1 else 0) + (if DividendCheck(m) then 1 else 0), 2,
           buyback + issuance + dividends)
  }

  // ---------------------------------------------------------------------------
  // Owner earnings and intrinsic value

  /** `calculate_owner_earnings`: net income plus depreciation minus the
      three quarters of capital expenditure taken as maintenance. */
  function OwnerEarnings(m: FinancialMetrics): (r: Option<real>)
    ensures r.Some? <==>
      Truthy(m.netIncome) && Truthy(m.depreciationAndAmortization) && Truthy(m.capitalExpenditure)
    ensures r.Some? ==>
      r.value - m.netIncome.value - m.depreciationAndAmortization.value == -(3.0 / 4.0) * m.capitalExpenditure.value
  {
    if Truthy(m.netIncome) && Truthy(m.depreciationAndAmortization) && Truthy(m.capitalExpenditure)
    then Some(m.netIncome.value + m.depreciationAndAmortization.value - m.capitalExpenditure.value * 0.75)
    else None
  }

  const GrowthRate: real := 0.05
  const DiscountRate: real := 0.09
  const TerminalMultiple: real := 12.0
  const ProjectionYears: nat := 10

  function Pow(x: real, n: nat): (r: real)
    ensures x > 0.0 ==> r > 0.0
  {
    if n == 0 then 1.0 else x * Pow(x, n - 1)
  }

  /** The discounted earnings of year `y` on base earnings `oe`. */
  function PresentValue(oe: real, y: nat): real
  {
    oe * Pow(1.0 + GrowthRate, y) / Pow(1.0 + DiscountRate, y)
  }

  /** The sum of the discounted earnings of years 1 to `n`. */
  function DiscountedSum(oe: real, n: nat): real
  {
    if n == 0 then 0.0 else DiscountedSum(oe, n - 1) + PresentValue(oe, n)
  }

  /** The terminal value: year-10 earnings times the multiple, discounted. */
  function TerminalValue(oe: real): real
  {
    oe * Pow(1.0 + GrowthRate, ProjectionYears) * TerminalMultiple / Pow(1.0 + DiscountRate, ProjectionYears)
  }

  /** Intrinsic value per unit of owner earnings. */
  function DcfFactor(): real
  {
    DiscountedSum(1.0, ProjectionYears) + TerminalValue(1.0)
  }

  /** The discounted sum is linear in the base earnings. */
  lemma {:induction false} DiscountedSumLinear(oe: real, n: nat)
    ensures DiscountedSum(oe, n) == oe * DiscountedSum(1.0, n)
  {
    if n > 0 {
      DiscountedSumLinear(oe, n - 1);
      PresentValueLinear(oe, n);
    }
  }

  lemma PresentValueLinear(oe: real, y: nat)
    ensures PresentValue(oe, y) == oe * PresentValue(1.0, y)
  {
    var g := Pow(1.0 + GrowthRate, y);
    var d := Pow(1.0 + DiscountRate, y);
    assert d > 0.0;
    assert oe * g / d == oe * (1.0 * g / d);
  }

  /** Every year's discount factor is positive, so is their sum. */
  lemma {:induction false} DiscountedSumPositive(n: nat)
    ensures n > 0 ==> DiscountedSum(1.0, n) > 0.0
    ensures DiscountedSum(1.0, n) >= 0.0
  {
    if n > 0 {
      DiscountedSumPositive(n - 1);
      var g := Pow(1.0 + GrowthRate, n);
      var d := Pow(1.0 + DiscountRate, n);
      assert g > 0.0 && d > 0.0;
      assert PresentValue(1.0, n) == 1.0 * g / d;
    }
  }

  /** The factor by which the model multiplies owner earnings is positive. */
  lemma DcfFactorPositive()
    ensures DcfFactor() > 0.0
  {
    DiscountedSumPositive(ProjectionYears);
    var g := Pow(1.0 + GrowthRate, ProjectionYears);
    var d := Pow(1.0 + DiscountRate, ProjectionYears);
    assert g > 0.0 && d > 0.0;
    assert TerminalValue(1.0) == 1.0 * g * TerminalMultiple / d;
  }

  lemma TerminalValueLinear(oe: real)
    ensures TerminalValue(oe) == oe * TerminalValue(1.0)
  {
    var g := Pow(1.0 + GrowthRate, ProjectionYears);
    var d := Pow(1.0 + DiscountRate, ProjectionYears);
    assert d > 0.0;
    assert oe * g * TerminalMultiple / d == oe * (1.0 * g * TerminalMultiple / d);
  }

  /** The DCF outcome: the intrinsic value, the owner earnings used, and notes. */
  datatype Valuation = Valuation(intrinsicValue: Option<real>, ownerEarnings: Option<real>, notes: seq<Note>)

  /** `calculate_intrinsic_value`: owner earnings that are missing or zero, or a
      missing share count, give no value; otherwise the ten discounted years
      plus the discounted terminal value. */
  function IntrinsicValueOf(m: FinancialMetrics): (r: Valuation)
    ensures r.intrinsicValue.Some? <==> Truthy(OwnerEarnings(m)) && Truthy(m.outstandingShares)
    ensures r.intrinsicValue.Some? ==>
      r.ownerEarnings == OwnerEarnings(m) &&
      r.intrinsicValue.value == OwnerEarnings(m).value * DcfFactor()
    ensures r.intrinsicValue.Some? ==> (r.intrinsicValue.value > 0.0 <==> OwnerEarnings(m).value > 0.0)
    ensures OwnerEarnings(m).None? ==> r.notes == [MissingComponents]
  {
    var oe := OwnerEarnings(m);
    if !Truthy(oe) then
      Valuation(None, None, if oe.None? then [MissingComponents] else [OwnerEarningsCalculated])
    else if !Truthy(m.outstandingShares) then Valuation(None, None, [MissingShares])
    else
      DcfLinear(oe.value);
      DcfFactorPositive();
      Valuation(Some(DiscountedSum(oe.value, ProjectionYears) + TerminalValue(oe.value)), oe, [DiscountedCashFlow])
  }

  /** The projection as a whole is owner earnings times the per-unit factor. */
  lemma DcfLinear(oe: real)
    ensures DiscountedSum(oe, ProjectionYears) + TerminalValue(oe) == oe * DcfFactor()
  {
    DiscountedSumLinear(oe, ProjectionYears);
    TerminalValueLinear(oe);
  }

  /** `calculate_intrinsic_value`, with its year-by-year loop. */
  method CalculateIntrinsicValue(m: FinancialMetrics) returns (r: Valuation)
    ensures r == IntrinsicValueOf(m)
  {
    var oe := OwnerEarnings(m);
    if !Truthy(oe) {
      return Valuation(None, None, if oe.None? then [MissingComponents] else [OwnerEarningsCalculated]);
    }
    if !Truthy(m.outstandingShares) {
      return Valuation(None, None, [MissingShares]);
    }
    var futureValue := 0.0;
    for year := 1 to ProjectionYears + 1
      invariant futureValue == DiscountedSum(oe.value, year - 1)
    {
      var futureEarnings := oe.value * Pow(1.0 + GrowthRate, year);
      var presentValue := futureEarnings / Pow(1.0 + DiscountRate, year);
      futureValue := futureValue + presentValue;
    }
    r := Valuation(Some(futureValue + TerminalValue(oe.value)), oe, [DiscountedCashFlow]);
  }

  // ---------------------------------------------------------------------------
  // Margin of safety and the signal

  /** `(intrinsic_value - market_cap) / market_cap` when both are truthy. */
  function MarginOfSafety(iv: Option<real>, marketCap: Option<real>): (r: Option<real>)
    ensures r.Some? <==> Truthy(iv) && Truthy(marketCap)
    ensures r.Some? ==> iv.value == marketCap.value * (1.0 + r.value)
  {
    if Truthy(iv) && Truthy(marketCap) then Some((iv.value - marketCap.value) / marketCap.value) else None
  }

  /** The most points: 10 for fundamentals and consistency, plus the moat and
      management maxima. */
  const MaxScore: nat := 10 + 3 + 2

  /** Bullish on a high score with a truthy margin of at least 30%; otherwise
      bearish on a low score or a margin below -30%. */
  function SignalOf(score: int, maxScore: int, mos: Option<real>): (s: Signal)
    ensures s == Bullish <==> HighScore(score, maxScore) && Truthy(mos) && mos.value >= 0.3
    ensures s == Bearish <==>
      !(HighScore(score, maxScore) && Truthy(mos) && mos.value >= 0.3) &&
      (LowScore(score, maxScore) || (mos.Some? && mos.value < -0.3))
  {
    if HighScore(score, maxScore) && Truthy(mos) && mos.value >= 0.3 then Bullish
    else if LowScore(score, maxScore) || (mos.Some? && mos.value < -0.3) then Bearish
    else Neutral
  }

  /** On a positive maximum the bullish and the bearish conditions exclude each
      other, so testing bearish second never hides a bullish result. */
  lemma SignalConditionsDisjoint(score: int, maxScore: int, mos: Option<real>)
    requires maxScore > 0
    ensures !((HighScore(score, maxScore) && Truthy(mos) && mos.value >= 0.3) &&
              (LowScore(score, maxScore) || (mos.Some? && mos.value < -0.3)))
  {
  }

  /** A high score without a margin of safety is not enough: 80% of the maximum
      with a 10% margin is neutral, and the same score with no margin at all too. */
  lemma HighScoreNeedsMargin()
    ensures SignalOf(12, MaxScore, Some(0.1)) == Neutral
    ensures SignalOf(12, MaxScore, None) == Neutral
    ensures SignalOf(12, MaxScore, Some(0.3)) == Bullish
    ensures SignalOf(12, MaxScore, Some(-0.31)) == Bearish
  {
  }

  /** On the fixed maximum of 15, a bullish call needs at least 11 points. */
  lemma BullishNeedsEleven(score: int, mos: Option<real>)
    ensures SignalOf(score, MaxScore, mos) == Bullish ==> score >= 11 && mos.Some? && mos.value >= 0.3
  {
    ThresholdsOnFifteen(score);
  }

  /** Everything the analyst hands to the narrative generator. */
  datatype Analysis = Analysis(
    signal: Signal,
    score: nat,
    maxScore: nat,
    fundamentals: Scored,
    consistency: Scored,
    moat: Capped,
    management: Capped,
    valuation: Valuation,
    marketCap: Option<real>,
    marginOfSafety: Option<real>)

  /** Lines 77-94 of the source on already computed checks: the total, the
      maximum, the margin of safety and the signal. */
  function Combine(fundamentals: Scored, consistency: Scored, moat: Capped, management: Capped,
                   valuation: Valuation, marketCap: Option<real>): (a: Analysis)
    requires fundamentals.score <= 7 && consistency.score <= 3
    requires moat.maxScore == 3 && moat.score <= 3 && management.maxScore == 2 && management.score <= 2
    ensures a.maxScore == MaxScore && a.score <= a.maxScore
    ensures a.score == fundamentals.score + consistency.score + moat.score + management.score
    ensures a.marginOfSafety == MarginOfSafety(valuation.intrinsicValue, marketCap)
    ensures a.signal == SignalOf(a.score, a.maxScore, a.marginOfSafety)
    ensures a.signal == Bullish ==> a.score >= 11 && Truthy(marketCap) && Truthy(valuation.intrinsicValue)
    ensures a.fundamentals == fundamentals && a.consistency == consistency && a.moat == moat
    ensures a.management == management && a.valuation == valuation && a.marketCap == marketCap
  {
    var total := fundamentals.score + consistency.score + moat.score + management.score;
    var maxScore := 10 + moat.maxScore + management.maxScore;
    var mos := MarginOfSafety(valuation.intrinsicValue, marketCap);
    BullishNeedsEleven(total, mos);
    Analysis(SignalOf(total, maxScore, mos), total, maxScore,
             fundamentals, consistency, moat, management, valuation, marketCap, mos)
  }

  /** The scoring part of `process_single_ticker`. */
  function Analyze(m: FinancialMetrics, h: seq<FinancialMetrics>): (a: Analysis)
    ensures a.maxScore == MaxScore
    ensures a.score <= a.maxScore
    ensures a.score == a.fundamentals.score + a.consistency.score + a.moat.score + a.management.score
    ensures a.fundamentals == Fundamentals(m) && a.consistency == Consistency(h)
    ensures a.moat == MoatOf(h) && a.management == ManagementQuality(m)
    ensures a.valuation == IntrinsicValueOf(m) && a.marketCap == m.marketCap
    ensures a.marginOfSafety == MarginOfSafety(IntrinsicValueOf(m).intrinsicValue, m.marketCap)
    ensures a.signal == SignalOf(a.score, a.maxScore, a.marginOfSafety)
    ensures a.signal == Bullish ==> a.score >= 11 && Truthy(m.marketCap) && Truthy(OwnerEarnings(m))
  {
    var valuation := IntrinsicValueOf(m);
    assert Truthy(valuation.intrinsicValue) ==> Truthy(OwnerEarnings(m));
    Combine(Fundamentals(m), Consistency(h), MoatOf(h), ManagementQuality(m), valuation, m.marketCap)
  }

  /** A loaded history can still back every point except the two of the
      bonus and margin part of the moat: at most 13 of 15. */
  lemma ScoreOnFetchedHistory(d: TickerData, m: FinancialMetrics, periods: nat)
    requires HistoricalMetrics(d, periods).Ok?
    ensures Analyze(m, HistoricalMetrics(d, periods).value).score <= 13
  {
    MoatOfFetchedHistory(d, periods);
  }

  // ---------------------------------------------------------------------------
  // One ticker, and the analyst

  const HistoryPeriods: nat := 5

  /** `process_single_ticker`: the provider call (`market`, given the normalised
      symbol), both loaders, the scoring, then the narrative generator
      (`narrate`). A failure anywhere yields `None`. */
  function ProcessTicker<R>(ticker: string, market: string -> Option<TickerData>,
                            narrate: (string, Analysis) -> Option<R>): (r: Option<R>)
    ensures var data := market(NormalizeSymbol(ticker));
      if data.Some? && LatestMetrics(data.value).Ok? && HistoricalMetrics(data.value, HistoryPeriods).Ok?
      then r == narrate(ticker, Analyze(LatestMetrics(data.value).value,
                                        HistoricalMetrics(data.value, HistoryPeriods).value))
      else r.None?
  {
    var data := market(NormalizeSymbol(ticker));
    if data.None? then None
    else
      var latest := LatestMetrics(data.value);
      var history := HistoricalMetrics(data.value, HistoryPeriods);
      if latest.Err? || history.Err? then None
      else narrate(ticker, Analyze(latest.value, history.value))
  }

  const WorkerCap: nat := 2

  /** `warren_buffett_analyst`: the fan-in over at most two workers. */
  method WarrenBuffettAnalyst<R>(tickers: seq<string>, market: string -> Option<TickerData>,
                                 narrate: (string, Analysis) -> Option<R>)
    returns (results: map<string, R>)
    ensures forall t :: t in results <==> t in tickers && ProcessTicker(t, market, narrate).Some?
    ensures forall t :: t in results ==> results[t] == ProcessTicker(t, market, narrate).value
  {
    var process := t => ProcessTicker(t, market, narrate);
    assert forall t :: process(t) == ProcessTicker(t, market, narrate);
    results := FanIn.Collect(tickers, WorkerCap, process);
  }
}
