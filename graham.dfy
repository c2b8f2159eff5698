/**
  The Benjamin Graham analyst: earnings stability over the loaded history,
  financial strength and a net-net / Graham-number valuation read off the
  history's last record, and the signal on a stated maximum of 15 points.

  The Graham number `sqrt(22.5 * EPS * BVPS)` itself is never computed: it is
  compared with the share price only through its square, which the lemma
  `MarginTestsAgreeWithGrahamNumber` shows to give the same answers.
*/
module Graham {
  import opened Wrappers
  import opened Finance
  import opened Verdict
  import FanIn

  datatype Note =
    // earnings stability
    | InsufficientEarningsData | NotEnoughEps
    | AllPositive | MostlyPositive | OftenNegative | EpsGrew | EpsDidNotGrow
    // financial strength
    | NoStrengthData
    | CurrentRatioSolid(ratio: real) | CurrentRatioModerate(ratio: real) | CurrentRatioWeak(ratio: real)
    | NoCurrentRatio
    | DebtConservative(ratio: real) | DebtAcceptable(ratio: real) | DebtHigh(ratio: real) | NoDebtRatio
    | DividendsMostYears | DividendsSomeYears | NoDividendsPaid | NoDividendData
    // valuation
    | InsufficientValuationData
    | NetCurrentAssets(ncav: real, ncavPerShare: real, pricePerShare: real)
    | DeepValue | ModerateDiscount | NoNetNet
    | GrahamNumberComputed | NoGrahamNumber
    | WellBelowGrahamNumber | SomeMargin | LowMargin | InvalidPrice

  datatype Scored = Scored(score: nat, notes: seq<Note>)

  // ---------------------------------------------------------------------------
  // Earnings stability

  /** `sum(1 for e in xs if e > 0)`. */
  function CountPositive(xs: seq<real>): (r: nat)
    ensures r <= |xs|
    ensures r == |xs| <==> forall i :: 0 <= i < |xs| ==> xs[i] > 0.0
  {
    if xs == [] then 0
    else
      var front := xs[..|xs| - 1];
      assert forall i :: 0 <= i < |front| ==> front[i] == xs[i];
      CountPositive(front) + (if xs[|xs| - 1] > 0.0 then 1 else 0)
  }

  /** Counting over two lists in a row counts over each in turn; with the
      one-value case this fixes the count of every list. */
  lemma {:induction false} CountPositiveAppend(a: seq<real>, b: seq<real>)
    ensures CountPositive(a + b) == CountPositive(a) + CountPositive(b)
    ensures |b| == 1 ==> CountPositive(b) == if b[0] > 0.0 then 1 else 0
  {
    if b != [] {
      var n := |b| - 1;
      assert (a + b)[..|a + b| - 1] == a + b[..n];
      assert (a + b)[|a + b| - 1] == b[n];
      CountPositiveAppend(a, b[..n]);
      if |b| == 1 {
        assert b[..n] == [];
      }
    } else {
      assert a + b == a;
    }
  }

  /** 3 points when every EPS is positive, 2 when at least 80% are. */
  function PositivityPoints(eps: seq<real>): (r: nat)
    ensures r == 3 <==> forall i :: 0 <= i < |eps| ==> eps[i] > 0.0
    ensures r >= 2 <==> CountPositive(eps) as real >= 0.8 * |eps| as real
    ensures r == 0 || r == 2 || r == 3
  {
    if CountPositive(eps) == |eps| then 3
    else if CountPositive(eps) as real >= |eps| as real * 0.8 then 2
    else 0
  }

  /** The stability check on the collected EPS list. */
  function StabilityOfEps(eps: seq<real>): (r: Scored)
    requires |eps| >= 2
    ensures r.score <= 4
    ensures r.score == 4 <==> (forall i :: 0 <= i < |eps| ==> eps[i] > 0.0) && eps[|eps| - 1] > eps[0]
    ensures r.score >= 3 ==> CountPositive(eps) as real >= 0.8 * |eps| as real
    ensures r.score == 0 <==> CountPositive(eps) as real < 0.8 * |eps| as real && eps[|eps| - 1] <= eps[0]
    ensures |r.notes| == 2
    ensures eps[|eps| - 1] > eps[0] ==> r.score == PositivityPoints(eps) + 1 && r.notes[1] == EpsGrew
    ensures eps[|eps| - 1] <= eps[0] ==> r.score == PositivityPoints(eps) && r.notes[1] == EpsDidNotGrow
  {
    var points := PositivityPoints(eps);
    var positivityNote := if points == 3 then AllPositive else if points == 2 then MostlyPositive else OftenNegative;
    if eps[|eps| - 1] > eps[0] then Scored(points + 1, [positivityNote, EpsGrew])
    else Scored(points, [positivityNote, EpsDidNotGrow])
  }

  /** `analyze_earnings_stability` on the history (the latest snapshot is unused). */
  function EarningsStabilityOf(h: seq<FinancialMetrics>): (r: Scored)
    ensures r.score <= 4
    ensures |h| == 0 ==> r == Scored(0, [InsufficientEarningsData])
    ensures |h| > 0 && |Present(h, EpsOf)| < 2 ==> r == Scored(0, [NotEnoughEps])
    ensures |Present(h, EpsOf)| >= 2 ==> r == StabilityOfEps(Present(h, EpsOf))
  {
    if |h| == 0 then Scored(0, [InsufficientEarningsData])
    else
      var eps := Present(h, EpsOf);
      if |eps| < 2 then Scored(0, [NotEnoughEps]) else StabilityOfEps(eps)
  }

  /** `analyze_earnings_stability`, with the loop collecting present EPS values. */
  method AnalyzeEarningsStability(h: seq<FinancialMetrics>) returns (r: Scored)
    ensures r == EarningsStabilityOf(h)
  {
    if |h| == 0 {
      return Scored(0, [InsufficientEarningsData]);
    }
    var epsVals: seq<real> := [];
    for i := 0 to |h|
      invariant epsVals == Present(h[..i], EpsOf)
    {
      assert h[..i + 1][..i] == h[..i];
      if h[i].earningsPerShare.Some? {
        epsVals := epsVals + [h[i].earningsPerShare.value];
      }
    }
    assert h[..|h|] == h;
    if |epsVals| < 2 {
      return Scored(0, [NotEnoughEps]);
    }
    r := StabilityOfEps(epsVals);
  }

  /** Five periods with EPS 1, 2, 3, 4, 5 in list order score the full 4 points. */
  lemma EarningsOfRisingSeries(h: seq<FinancialMetrics>)
    requires |h| == 5
    requires forall i :: 0 <= i < 5 ==> h[i].earningsPerShare == Some((i + 1) as real)
    ensures EarningsStabilityOf(h).score == 4
  {
    var eps := Present(h, EpsOf);
    assert forall k :: 0 <= k < |h| ==> EpsOf(h[k]).Some?;
    assert eps[0] == 1.0 && eps[4] == 5.0;
  }

  /** A single period with EPS is not enough data. */
  lemma EarningsNeedTwoPeriods(h: seq<FinancialMetrics>)
    requires |h| == 1
    ensures EarningsStabilityOf(h) == Scored(0, [NotEnoughEps])
  {
  }

  // ---------------------------------------------------------------------------
  // Financial strength

  /** Current-ratio points: 2 at a ratio of at least 2, 1 at least 1.5, none when
      current liabilities are not positive. */
  function CurrentRatioPoints(ca: real, cl: real): (r: nat)
    ensures r == 2 <==> cl > 0.0 && ca >= 2.0 * cl
    ensures r >= 1 <==> cl > 0.0 && ca >= 1.5 * cl
    ensures r <= 2
  {
    if cl > 0.0 then
      var ratio := ca / cl;
      RatioScaling(ca, cl, 2.0);
      RatioScaling(ca, cl, 1.5);
      if ratio >= 2.0 then 2 else if ratio >= 1.5 then 1 else 0
    else 0
  }

  /** Debt-ratio points: 2 when liabilities are under half of assets, 1 under
      80%, none when total assets are not positive. */
  function DebtRatioPoints(ta: real, tl: real): (r: nat)
    ensures r == 2 <==> ta > 0.0 && tl < 0.5 * ta
    ensures r >= 1 <==> ta > 0.0 && tl < 0.8 * ta
    ensures r <= 2
  {
    if ta > 0.0 then
      var ratio := tl / ta;
      RatioScaling(tl, ta, 0.5);
      RatioScaling(tl, ta, 0.8);
      if ratio < 0.5 then 2 else if ratio < 0.8 then 1 else 0
    else 0
  }

  /** Comparing a quotient with a bound is comparing the numerator with the scaled bound. */
  lemma RatioScaling(a: real, b: real, k: real)
    requires b > 0.0
    ensures a / b >= k <==> a >= k * b
    ensures a / b < k <==> a < k * b
    ensures a / b > k <==> a > k * b
  {
    assert a / b * b == a;
    if a / b >= k {
      assert a / b * b >= k * b;
    }
    if a >= k * b {
      assert a / b >= k * b / b;
    }
    if a / b > k {
      assert a / b * b > k * b;
    }
    if a > k * b {
      assert a / b > k * b / b;
    }
  }

  /** `sum(1 for d in xs if d < 0)`: the periods with a dividend outflow. */
  function CountNegative(xs: seq<real>): (r: nat)
    ensures r <= |xs|
  {
    if xs == [] then 0
    else CountNegative(xs[..|xs| - 1]) + (if xs[|xs| - 1] < 0.0 then 1 else 0)
  }

  /** The dividend point: dividends paid in a strict majority of the periods
      that report a dividend figure. */
  function DividendPoints(divs: seq<real>): (r: nat)
    ensures r == 1 <==> 2 * CountNegative(divs) > |divs|
    ensures r <= 1
  {
    if |divs| > 0 && CountNegative(divs) > 0 && CountNegative(divs) >= |divs| / 2 + 1 then 1 else 0
  }

  function DividendNote(divs: seq<real>): Note
  {
    if |divs| == 0 then NoDividendData
    else if CountNegative(divs) == 0 then NoDividendsPaid
    else if CountNegative(divs) >= |divs| / 2 + 1 then DividendsMostYears
    else DividendsSomeYears
  }

  /** `analyze_financial_strength`: liquidity and leverage of the last record,
      dividends over all of them; a figure that is missing counts as 0. */
  function FinancialStrength(h: seq<FinancialMetrics>): (r: Scored)
    ensures r.score <= 5
    ensures |h| == 0 ==> r == Scored(0, [NoStrengthData])
    ensures |h| > 0 ==>
      var last := h[|h| - 1];
      r.score == CurrentRatioPoints(OrZero(last.currentAssets), OrZero(last.currentLiabilities)) +
                 DebtRatioPoints(OrZero(last.totalAssets), OrZero(last.totalLiabilities)) +
                 DividendPoints(Present(h, DividendsOf))
  {
    if |h| == 0 then Scored(0, [NoStrengthData])
    else
      var last := h[|h| - 1];
      var ta := OrZero(last.totalAssets);
      var tl := OrZero(last.totalLiabilities);
      var ca := OrZero(last.currentAssets);
      var cl := OrZero(last.currentLiabilities);
      var liquidity :=
        if cl > 0.0 then
          var ratio := ca / cl;
          if ratio >= 2.0 then CurrentRatioSolid(ratio)
          else if ratio >= 1.5 then CurrentRatioModerate(ratio) else CurrentRatioWeak(ratio)
        else NoCurrentRatio;
      var leverage :=
        if ta > 0.0 then
          var ratio := tl / ta;
          if ratio < 0.5 then DebtConservative(ratio)
          else if ratio < 0.8 then DebtAcceptable(ratio) else DebtHigh(ratio)
        else NoDebtRatio;
      var divs := Present(h, DividendsOf);
      Scored(CurrentRatioPoints(ca, cl) + DebtRatioPoints(ta, tl) + DividendPoints(divs),
             [liquidity, leverage, DividendNote(divs)])
  }

  // ---------------------------------------------------------------------------
  // Valuation

  /** Net-net points: 4 when net current assets exceed the market
      capitalisation, else 2 when per share they reach two thirds of the price. */
  function NetNetPoints(ncav: real, shares: real, marketCap: real): (r: nat)
    ensures r == 4 <==> ncav > 0.0 && shares > 0.0 && ncav > marketCap
    ensures r == 2 <==> ncav > 0.0 && shares > 0.0 && ncav <= marketCap && ncav >= 0.67 * marketCap
    ensures r == 0 || r == 2 || r == 4
  {
    if ncav > 0.0 && shares > 0.0 then
      if ncav > marketCap then 4
      else
        PerShareScaling(ncav, marketCap, shares);
        if ncav / shares >= marketCap / shares * 0.67 then 2 else 0
    else 0
  }

  /** Dividing both sides by the share count keeps the comparison. */
  lemma PerShareScaling(a: real, b: real, s: real)
    requires s > 0.0
    ensures a / s >= b / s * 0.67 <==> a >= 0.67 * b
  {
    assert b / s * 0.67 == (0.67 * b) / s;
    RatioScaling(a, s, (0.67 * b) / s);
    assert (0.67 * b) / s * s == 0.67 * b;
  }

  /** The square of the Graham number, `22.5 * EPS * BVPS`. */
  function GrahamSquare(eps: real, bvps: real): real
  {
    22.5 * eps * bvps
  }

  /** Graham-number points: 3 when the number is more than 50% above the price,
      1 when more than 20% above, tested through squares. */
  function GrahamPoints(eps: real, bvps: real, shares: real, marketCap: real): (r: nat)
    requires marketCap > 0.0
    ensures r == 0 || r == 1 || r == 3
    ensures r > 0 ==> eps > 0.0 && bvps > 0.0 && shares > 0.0
    ensures r == 3 <==> (eps > 0.0 && bvps > 0.0 && shares > 0.0 &&
      GrahamSquare(eps, bvps) > 2.25 * (marketCap / shares) * (marketCap / shares))
    ensures r >= 1 <==> (eps > 0.0 && bvps > 0.0 && shares > 0.0 &&
      GrahamSquare(eps, bvps) > 1.44 * (marketCap / shares) * (marketCap / shares))
  {
    if eps > 0.0 && bvps > 0.0 && shares > 0.0 then
      var price := marketCap / shares;
      var square := GrahamSquare(eps, bvps);
      if square > 2.25 * price * price then 3
      else if square > 1.44 * price * price then 1
      else 0
    else 0
  }

  lemma SquareMonotone(x: real, y: real)
    requires x >= 0.0 && y >= 0.0
    ensures x > y <==> x * x > y * y
  {
    if x > y {
      ScaleStrict(x, y, x);
      ScaleWeak(x, y, y);
      ProductChain(x, y, x);
    } else {
      ScaleWeak(y, x, x);
      ScaleWeak(y, x, y);
    }
  }

  lemma ScaleStrict(a: real, b: real, c: real)
    requires a > b && c > 0.0
    ensures a * c > b * c
  {
  }

  lemma ScaleWeak(a: real, b: real, c: real)
    requires a >= b && c >= 0.0
    ensures b * c <= a * c
  {
  }

  lemma ProductChain(x: real, y: real, z: real)
    requires x * z > y * z && y * z >= y * y
    ensures x * z > y * y
  {
  }

  /** For any non-negative `g` whose square is `22.5 * EPS * BVPS` (the value
      `math.sqrt` returns), the source's margin tests `(g - p) / p > 0.5` and
      `(g - p) / p > 0.2` on a positive price `p` agree with the squared tests. */
  lemma MarginTestsAgreeWithGrahamNumber(g: real, eps: real, bvps: real, price: real)
    requires g >= 0.0 && g * g == GrahamSquare(eps, bvps)
    requires price > 0.0
    ensures (g - price) / price > 0.5 <==> GrahamSquare(eps, bvps) > 2.25 * price * price
    ensures (g - price) / price > 0.2 <==> GrahamSquare(eps, bvps) > 1.44 * price * price
  {
    RatioScaling(g - price, price, 0.5);
    RatioScaling(g - price, price, 0.2);
    assert (g - price) / price > 0.5 <==> g > 1.5 * price;
    assert (g - price) / price > 0.2 <==> g > 1.2 * price;
    SquareMonotone(g, 1.5 * price);
    SquareMonotone(g, 1.2 * price);
    assert (1.5 * price) * (1.5 * price) == 2.25 * price * price;
    assert (1.2 * price) * (1.2 * price) == 1.44 * price * price;
  }

  /** `analyze_valuation_graham` on the history's last record and the market cap. */
  function ValuationGraham(h: seq<FinancialMetrics>, marketCap: Option<real>): (r: Scored)
    ensures r.score <= 7
    ensures |h| == 0 || !Truthy(marketCap) || marketCap.value <= 0.0 ==>
      r == Scored(0, [InsufficientValuationData])
    ensures |h| > 0 && Truthy(marketCap) && marketCap.value > 0.0 ==>
      var last := h[|h| - 1];
      r.score ==
        NetNetPoints(OrZero(last.currentAssets) - OrZero(last.totalLiabilities),
                     OrZero(last.outstandingShares), marketCap.value) +
        GrahamPoints(OrZero(last.earningsPerShare), OrZero(last.bookValuePerShare),
                     OrZero(last.outstandingShares), marketCap.value)
  {
    if |h| == 0 || !Truthy(marketCap) || marketCap.value <= 0.0 then Scored(0, [InsufficientValuationData])
    else
      var mc := marketCap.value;
      var last := h[|h| - 1];
      var ca := OrZero(last.currentAssets);
      var tl := OrZero(last.totalLiabilities);
      var bvps := OrZero(last.bookValuePerShare);
      var eps := OrZero(last.earningsPerShare);
      var shares := OrZero(last.outstandingShares);
      var ncav := ca - tl;
      var netNetNotes :=
        if ncav > 0.0 && shares > 0.0 then
          var perShare := ncav / shares;
          var pricePerShare := mc / shares;
          [NetCurrentAssets(ncav, perShare, pricePerShare)] +
          (if ncav > mc then [DeepValue]
           else if perShare >= pricePerShare * 0.67 then [ModerateDiscount] else [])
        else [NoNetNet];
      var hasNumber := eps > 0.0 && bvps > 0.0;
      var numberNotes := if hasNumber then [GrahamNumberComputed] else [NoGrahamNumber];
      var marginNotes :=
        if hasNumber && shares > 0.0 then
          var price := mc / shares;
          if price > 0.0 then
            var square := GrahamSquare(eps, bvps);
            if square > 2.25 * price * price then [WellBelowGrahamNumber]
            else if square > 1.44 * price * price then [SomeMargin] else [LowMargin]
          else [InvalidPrice]
        else [];
      Scored(NetNetPoints(ncav, shares, mc) + GrahamPoints(eps, bvps, shares, mc),
             netNetNotes + numberNotes + marginNotes)
  }

  /** Net current assets of 300 against a market cap of 250 earn the deep-value 4 points. */
  lemma DeepValueScenario()
    ensures NetNetPoints(300.0, 10.0, 250.0) == 4
    ensures NetNetPoints(200.0, 10.0, 250.0) == 2
    ensures NetNetPoints(100.0, 10.0, 250.0) == 0
  {
  }

  // ---------------------------------------------------------------------------
  // The signal

  /** The maximum the source states for the three checks together. */
  const StatedMaxScore: nat := 15

  function SignalOf(score: int): (s: Signal)
    ensures s == Bullish <==> score >= 11
    ensures s == Bearish <==> score <= 4
  {
    ThresholdsOnFifteen(score);
    if HighScore(score, StatedMaxScore) then Bullish
    else if LowScore(score, StatedMaxScore) then Bearish
    else Neutral
  }

  datatype Analysis = Analysis(
    signal: Signal,
    score: nat,
    maxScore: nat,
    earnings: Scored,
    strength: Scored,
    valuation: Scored)

  /** The scoring part of `process_single_ticker`. The three checks can give
      4 + 5 + 7 = 16 points, one more than the stated maximum. */
  function Analyze(m: FinancialMetrics, h: seq<FinancialMetrics>): (a: Analysis)
    ensures a.score <= 16 && a.maxScore == StatedMaxScore
    ensures a.score == a.earnings.score + a.strength.score + a.valuation.score
    ensures a.earnings == EarningsStabilityOf(h) && a.strength == FinancialStrength(h)
    ensures a.valuation == ValuationGraham(h, m.marketCap)
    ensures a.signal == SignalOf(a.score)
  {
    var earnings := EarningsStabilityOf(h);
    var strength := FinancialStrength(h);
    var valuation := ValuationGraham(h, m.marketCap);
    var total := earnings.score + strength.score + valuation.score;
    Analysis(SignalOf(total), total, StatedMaxScore, earnings, strength, valuation)
  }

  /** The older of two periods that pass every check: EPS 1 and a dividend paid. */
  const OlderPeriod: FinancialMetrics :=
    NoMetrics.(earningsPerShare := Some(1.0), dividendsAndOtherCashDistributions := Some(-1.0))

  /** The newer period: EPS 2, a dividend paid, current ratio 10, debt ratio 0.1,
      net current assets of 80 on one share, and a Graham number of sqrt(45000). */
  const NewerPeriod: FinancialMetrics :=
    NoMetrics.(earningsPerShare := Some(2.0), dividendsAndOtherCashDistributions := Some(-1.0),
               currentAssets := Some(100.0), currentLiabilities := Some(10.0),
               totalAssets := Some(200.0), totalLiabilities := Some(20.0),
               outstandingShares := Some(1.0), bookValuePerShare := Some(1000.0))

  /** Both periods have positive EPS, and it grew: the full 4 points. */
  lemma FullEarningsOfTwoPeriods()
    ensures EarningsStabilityOf([OlderPeriod, NewerPeriod]).score == 4
  {
    var h := [OlderPeriod, NewerPeriod];
    assert forall k :: 0 <= k < |h| ==> EpsOf(h[k]).Some?;
    assert Present(h, EpsOf) == [1.0, 2.0];
  }

  /** Current ratio 10, debt ratio 0.1 and dividends in both periods: the full 5 points. */
  lemma FullStrengthOfTwoPeriods()
    ensures FinancialStrength([OlderPeriod, NewerPeriod]).score == 5
  {
    var h := [OlderPeriod, NewerPeriod];
    assert forall k :: 0 <= k < |h| ==> DividendsOf(h[k]).Some?;
    var divs := Present(h, DividendsOf);
    assert divs == [-1.0, -1.0];
    assert CountNegative(divs) == 2;
  }

  /** A net-net and a Graham number far above the price: the full 7 points. */
  lemma FullValuationOfTwoPeriods()
    ensures ValuationGraham([OlderPeriod, NewerPeriod], Some(50.0)).score == 7
  {
    assert NetNetPoints(80.0, 1.0, 50.0) == 4;
    assert GrahamPoints(2.0, 1000.0, 1.0, 50.0) == 3;
  }

  /** Two periods whose checks all pass reach 16 points, above the stated maximum of 15. */
  lemma ScoreCanExceedStatedMaximum()
    ensures Analyze(NoMetrics.(marketCap := Some(50.0)), [OlderPeriod, NewerPeriod]).score == 16 > StatedMaxScore
  {
    FullEarningsOfTwoPeriods();
    FullStrengthOfTwoPeriods();
    FullValuationOfTwoPeriods();
  }

  // ---------------------------------------------------------------------------
  // Consequences for a freshly loaded history

  /** A history whose last record has no share count and none of whose records
      has a dividend figure gets nothing from valuation or the dividend point. */
  lemma NoValuationWithoutSharesOrDividends(h: seq<FinancialMetrics>, m: FinancialMetrics)
    requires |h| >= 1 && h[|h| - 1].outstandingShares.None?
    requires forall k :: 0 <= k < |h| ==> DividendsOf(h[k]).None?
    ensures ValuationGraham(h, m.marketCap).score == 0
    ensures DividendPoints(Present(h, DividendsOf)) == 0
  {
  }

  /** Such a history therefore scores at most 8 of the 4 + 5 + 7 points and is
      never bullish. */
  lemma NeverBullishWithoutSharesOrDividends(h: seq<FinancialMetrics>, m: FinancialMetrics)
    requires |h| >= 1 && h[|h| - 1].outstandingShares.None?
    requires forall k :: 0 <= k < |h| ==> DividendsOf(h[k]).None?
    ensures Analyze(m, h).score <= 8
    ensures Analyze(m, h).signal != Bullish
  {
    NoValuationWithoutSharesOrDividends(h, m);
  }

  /** With two or more loaded periods the last record carries no share count and
      no record carries a dividend figure, so a loaded history is never bullish. */
  lemma NeverBullishOnFetchedHistory(d: TickerData, m: FinancialMetrics, periods: nat)
    requires HistoricalMetrics(d, periods).Ok?
    requires |HistoricalMetrics(d, periods).value| >= 2
    ensures ValuationGraham(HistoricalMetrics(d, periods).value, m.marketCap).score == 0
    ensures DividendPoints(Present(HistoricalMetrics(d, periods).value, DividendsOf)) == 0
    ensures Analyze(m, HistoricalMetrics(d, periods).value).score <= 8
    ensures Analyze(m, HistoricalMetrics(d, periods).value).signal != Bullish
  {
    var h := HistoricalMetrics(d, periods).value;
    HistoricalShape(d, periods);
    assert forall k :: 0 <= k < |h| ==> DividendsOf(h[k]).None?;
    NoValuationWithoutSharesOrDividends(h, m);
    NeverBullishWithoutSharesOrDividends(h, m);
  }

  // ---------------------------------------------------------------------------
  // One ticker, and the analyst

  const HistoryPeriods: nat := 10

  /** `process_single_ticker`: the provider call on the normalised symbol, both
      loaders, the scoring, then the narrative generator. A failure anywhere
      yields `None`. */
  function ProcessTicker<R>(ticker: string, market: string -> Option<TickerData>,
                            narrate: (string, Analysis) -> Option<R>): (r: Option<R>)
    ensures var data := market(NormalizeSymbol(ticker));
      if data.Some? && LatestMetrics(data.value).Ok? && HistoricalMetrics(data.value, HistoryPeriods).Ok?
      then r == narrate(ticker, Analyze(LatestMetrics(data.value).value,
                                        HistoricalMetrics(data.value, HistoryPeriods).value))
      else r.None?
  {
    var data := market(NormalizeSymbol(ticker));
    if data.None? then None
    else
      var latest := LatestMetrics(data.value);
      var history := HistoricalMetrics(data.value, HistoryPeriods);
      if latest.Err? || history.Err? then None
      else narrate(ticker, Analyze(latest.value, history.value))
  }

  const WorkerCap: nat := 32

  /** `ben_graham_analyst`: the fan-in over at most 32 workers. */
  method BenGrahamAnalyst<R>(tickers: seq<string>, market: string -> Option<TickerData>,
                             narrate: (string, Analysis) -> Option<R>)
    returns (results: map<string, R>)
    ensures forall t :: t in results <==> t in tickers && ProcessTicker(t, market, narrate).Some?
    ensures forall t :: t in results ==> results[t] == ProcessTicker(t, market, narrate).value
  {
    var process := t => ProcessTicker(t, market, narrate);
    assert forall t :: process(t) == ProcessTicker(t, market, narrate);
    results := FanIn.Collect(tickers, WorkerCap, process);
  }
}
