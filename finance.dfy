/**
  The metrics loader: the `FinancialMetrics` record with every field optional,
  the `.NS` symbol normalisation, the two label lookups (`safe_get`) over the
  statements a market-data provider returns, and the ratios derived from them
  for the latest snapshot and for each yearly period.

  A statement is a table of labelled rows, one cell per reporting column
  (newest column first, as the provider returns them).
*/
module Finance {
  import opened Wrappers
  import opened Text

  /** One reporting period of one company; every figure may be missing. */
  datatype FinancialMetrics = FinancialMetrics(
    capitalExpenditure: Option<real>,
    depreciationAndAmortization: Option<real>,
    netIncome: Option<real>,
    outstandingShares: Option<real>,
    totalAssets: Option<real>,
    totalLiabilities: Option<real>,
    dividendsAndOtherCashDistributions: Option<real>,
    issuanceOrPurchaseOfEquityShares: Option<real>,
    returnOnEquity: Option<real>,
    debtToEquityRatio: Option<real>,
    operatingMargin: Option<real>,
    currentRatio: Option<real>,
    marketCap: Option<real>,
    period: Option<string>,
    earningsPerShare: Option<real>,
    bookValuePerShare: Option<real>,
    priceToEarningsRatio: Option<real>,
    priceToBookRatio: Option<real>,
    workingCapital: Option<real>,
    longTermDebt: Option<real>,
    currentAssets: Option<real>,
    currentLiabilities: Option<real>)

  /** The record with every field left at its default, `None`. */
  const NoMetrics: FinancialMetrics :=
    FinancialMetrics(None, None, None, None, None, None, None, None, None, None, None,
                     None, None, None, None, None, None, None, None, None, None, None)

  /** Python truthiness of an optional number: present and nonzero. */
  predicate Truthy(x: Option<real>)
  {
    x.Some? && x.value != 0.0
  }

  /** Python's `x or 0` on an optional number. */
  function OrZero(x: Option<real>): (r: real)
    ensures Truthy(x) ==> r == x.value
    ensures !Truthy(x) ==> r == 0.0
  {
    if x.Some? then x.value else 0.0
  }

  // Field selectors, so that a column of a history can be passed as a function value.
  function NetIncomeOf(m: FinancialMetrics): Option<real> { m.netIncome }
  function RoeOf(m: FinancialMetrics): Option<real> { m.returnOnEquity }
  function OperatingMarginOf(m: FinancialMetrics): Option<real> { m.operatingMargin }
  function EpsOf(m: FinancialMetrics): Option<real> { m.earningsPerShare }
  function DividendsOf(m: FinancialMetrics): Option<real> { m.dividendsAndOtherCashDistributions }

  /** `[field(m) for m in h if field(m) is not None]`, in the order of `h`. */
  function Present(h: seq<FinancialMetrics>, field: FinancialMetrics -> Option<real>): (r: seq<real>)
    ensures |r| <= |h|
    ensures forall x :: x in r ==> exists k :: 0 <= k < |h| && field(h[k]) == Some(x)
    ensures (forall k :: 0 <= k < |h| ==> field(h[k]).Some?) ==>
      |r| == |h| && forall k :: 0 <= k < |h| ==> r[k] == field(h[k]).value
    ensures (forall k :: 0 <= k < |h| ==> field(h[k]).None?) ==> r == []
  {
    if h == [] then []
    else
      var last := field(h[|h| - 1]);
      var front := h[..|h| - 1];
      assert forall k :: 0 <= k < |front| ==> front[k] == h[k];
      Present(front, field) + (if last.Some? then [last.value] else [])
  }

  /** `[field(m) for m in h if field(m)]`: the present, nonzero values, in order. */
  function Nonzero(h: seq<FinancialMetrics>, field: FinancialMetrics -> Option<real>): (r: seq<real>)
    ensures |r| <= |h|
    ensures forall i :: 0 <= i < |r| ==> r[i] != 0.0
    ensures (forall k :: 0 <= k < |h| ==> Truthy(field(h[k]))) ==>
      |r| == |h| && forall k :: 0 <= k < |h| ==> r[k] == field(h[k]).value
  {
    if h == [] then []
    else
      var last := field(h[|h| - 1]);
      var front := h[..|h| - 1];
      assert forall k :: 0 <= k < |front| ==> front[k] == h[k];
      Nonzero(front, field) + (if Truthy(last) then [last.value] else [])
  }

  /** Collecting over two histories in a row collects over each in turn. With the
      one-record case this fixes `Present` on every history: each present value
      is kept, once, in the order of the records. */
  lemma {:induction false} PresentAppend(a: seq<FinancialMetrics>, b: seq<FinancialMetrics>,
                                          field: FinancialMetrics -> Option<real>)
    ensures Present(a + b, field) == Present(a, field) + Present(b, field)
    ensures Present([], field) == []
    ensures |b| == 1 ==> Present(b, field) == if field(b[0]).Some? then [field(b[0]).value] else []
  {
    if b != [] {
      var n := |b| - 1;
      assert (a + b)[..|a + b| - 1] == a + b[..n];
      assert (a + b)[|a + b| - 1] == b[n];
      PresentAppend(a, b[..n], field);
      if |b| == 1 {
        assert b[..n] == [];
      }
    } else {
      assert a + b == a;
    }
  }

  /** A value is collected exactly when some record carries it. */
  lemma {:induction false} PresentMembers(h: seq<FinancialMetrics>, field: FinancialMetrics -> Option<real>)
    ensures forall x :: x in Present(h, field) <==> exists k :: 0 <= k < |h| && field(h[k]) == Some(x)
  {
    if h != [] {
      var n := |h| - 1;
      var front := h[..n];
      PresentMembers(front, field);
      assert forall k :: 0 <= k < n ==> front[k] == h[k];
    }
  }

  /** The same two laws for the truthy values. */
  lemma {:induction false} NonzeroAppend(a: seq<FinancialMetrics>, b: seq<FinancialMetrics>,
                                          field: FinancialMetrics -> Option<real>)
    ensures Nonzero(a + b, field) == Nonzero(a, field) + Nonzero(b, field)
    ensures Nonzero([], field) == []
    ensures |b| == 1 ==> Nonzero(b, field) == if Truthy(field(b[0])) then [field(b[0]).value] else []
  {
    if b != [] {
      var n := |b| - 1;
      assert (a + b)[..|a + b| - 1] == a + b[..n];
      assert (a + b)[|a + b| - 1] == b[n];
      NonzeroAppend(a, b[..n], field);
      if |b| == 1 {
        assert b[..n] == [];
      }
    } else {
      assert a + b == a;
    }
  }

  /** A value is collected exactly when some record carries it truthily. */
  lemma {:induction false} NonzeroMembers(h: seq<FinancialMetrics>, field: FinancialMetrics -> Option<real>)
    ensures forall x :: x in Nonzero(h, field) <==>
      exists k :: 0 <= k < |h| && Truthy(field(h[k])) && field(h[k]).value == x
  {
    if h != [] {
      var n := |h| - 1;
      var front := h[..n];
      NonzeroMembers(front, field);
      assert forall k :: 0 <= k < n ==> front[k] == h[k];
    }
  }

  // ---------------------------------------------------------------------------
  // Ticker symbols

  /** The exchange suffix of the National Stock Exchange of India. */
  const ExchangeSuffix: string := ".NS"

  /** Appends `.NS` unless the symbol already ends with it. */
  function NormalizeSymbol(symbol: string): (r: string)
    ensures EndsWith(r, ExchangeSuffix)
    ensures |symbol| <= |r| && r[..|symbol|] == symbol
    ensures |r| == |symbol| <==> EndsWith(symbol, ExchangeSuffix)
    ensures |r| == |symbol| || |r| == |symbol| + |ExchangeSuffix|
  {
    if EndsWith(symbol, ExchangeSuffix) then symbol
    else
      var r := symbol + ExchangeSuffix;
      assert r[|r| - |ExchangeSuffix|..] == ExchangeSuffix;
      assert r[..|symbol|] == symbol;
      r
  }

  /** Normalising an already normalised symbol changes nothing. */
  lemma NormalizeIdempotent(symbol: string)
    ensures NormalizeSymbol(NormalizeSymbol(symbol)) == NormalizeSymbol(symbol)
  {
  }

  // ---------------------------------------------------------------------------
  // Statements as tables of labelled rows

  datatype Row = Row(name: string, cells: seq<real>)
  datatype Table = Table(columns: seq<string>, rows: seq<Row>)

  /** The three statements of one fetch. */
  datatype Statements = Statements(income: Table, balanceSheet: Table, cashflow: Table)

  /** The scalar quote fields the loader reads (`sharesOutstanding`, `currentPrice`, ...). */
  datatype Info = Info(
    sharesOutstanding: Option<real>,
    currentPrice: Option<real>,
    operatingMargins: Option<real>,
    marketCap: Option<real>)

  /** Everything the provider returns for one symbol: the default statements,
      the yearly statements, and the quote fields. */
  datatype TickerData = TickerData(latest: Statements, yearly: Statements, info: Info)

  /** Every row has one cell per column, as in a data frame. */
  ghost predicate Rectangular(t: Table)
  {
    forall i :: 0 <= i < |t.rows| ==> |t.rows[i].cells| == |t.columns|
  }

  /** Row `k` is the first whose label contains `key`, ignoring case. */
  ghost predicate FirstMatch(rows: seq<Row>, key: string, k: int)
  {
    && 0 <= k < |rows|
    && MatchesIgnoringCase(rows[k].name, key)
    && forall j :: 0 <= j < k ==> !MatchesIgnoringCase(rows[j].name, key)
  }

  /** No row's label contains `key`, ignoring case. */
  ghost predicate NoMatch(rows: seq<Row>, key: string)
  {
    forall j :: 0 <= j < |rows| ==> !MatchesIgnoringCase(rows[j].name, key)
  }

  /** The first-match search both `safe_get` helpers run over the row labels:
      the index of the first matching row, or the number of rows. */
  function FindRow(rows: seq<Row>, key: string): (k: nat)
    ensures k <= |rows|
    ensures k == |rows| <==> NoMatch(rows, key)
    ensures k < |rows| ==> FirstMatch(rows, key, k)
  {
    if rows == [] then 0
    else if MatchesIgnoringCase(rows[0].name, key) then 0
    else
      var k := 1 + FindRow(rows[1..], key);
      assert forall j :: 1 <= j < |rows| ==> rows[1..][j - 1] == rows[j];
      k
  }

  /** The latest-period `safe_get`: the first cell of the first matching row. */
  function LatestGet(t: Table, key: string): (r: Result<Option<real>>)
    ensures r.Err? ==> r.error == IndexError
  {
    var k := FindRow(t.rows, key);
    if k == |t.rows| then Ok(None)
    else if |t.rows[k].cells| == 0 then Err(IndexError)
    else Ok(Some(t.rows[k].cells[0]))
  }

  /** The latest lookup yields `None` when no label matches, and otherwise the
      first cell of the first matching row, raising `IndexError` when it has none. */
  lemma LatestGetSpec(t: Table, key: string)
    ensures NoMatch(t.rows, key) ==> LatestGet(t, key) == Ok(None)
    ensures forall k :: FirstMatch(t.rows, key, k) ==>
      LatestGet(t, key) == if |t.rows[k].cells| == 0 then Err(IndexError) else Ok(Some(t.rows[k].cells[0]))
  {
    var k := FindRow(t.rows, key);
    forall j | FirstMatch(t.rows, key, j)
      ensures LatestGet(t, key) == if |t.rows[j].cells| == 0 then Err(IndexError) else Ok(Some(t.rows[j].cells[0]))
    {
      FirstMatchUnique(t.rows, key, j, k);
    }
  }

  /** Only one row can be the first match. */
  lemma FirstMatchUnique(rows: seq<Row>, key: string, j: int, k: int)
    requires FirstMatch(rows, key, j)
    requires k == FindRow(rows, key)
    ensures j == k
  {
  }

  /** A data-frame row as a list of (present) values. */
  function Somes(cells: seq<real>): (r: seq<Option<real>>)
    ensures |r| == |cells|
    ensures forall i :: 0 <= i < |cells| ==> r[i] == Some(cells[i])
  {
    seq(|cells|, i requires 0 <= i < |cells| => Some(cells[i]))
  }

  /** A list of `n` `None`s. */
  function Nones(n: nat): (r: seq<Option<real>>)
    ensures |r| == n
    ensures forall i :: 0 <= i < n ==> r[i] == None
  {
    seq(n, _ => None)
  }

  /** The historical `safe_get`: the whole first matching row as a list. */
  function HistoryGet(t: Table, key: string): seq<Option<real>>
  {
    var k := FindRow(t.rows, key);
    if k == |t.rows| then Nones(|t.columns|) else Somes(t.rows[k].cells)
  }

  /** The historical lookup yields one `None` per column when no label matches,
      and otherwise every cell of the first matching row. */
  lemma HistoryGetSpec(t: Table, key: string)
    ensures NoMatch(t.rows, key) ==> HistoryGet(t, key) == Nones(|t.columns|)
    ensures forall k :: FirstMatch(t.rows, key, k) ==> HistoryGet(t, key) == Somes(t.rows[k].cells)
  {
    var k := FindRow(t.rows, key);
    forall j | FirstMatch(t.rows, key, j)
      ensures HistoryGet(t, key) == Somes(t.rows[j].cells)
    {
      FirstMatchUnique(t.rows, key, j, k);
    }
  }

  /** Python `a or b` on lists: `b` only when `a` is empty. */
  function OrList(a: seq<Option<real>>, b: seq<Option<real>>): seq<Option<real>>
  {
    if |a| > 0 then a else b
  }

  /** On a table with at least one column the historical lookup never yields an
      empty list, so an `or` fallback after it is never taken. */
  lemma OrFallbackNeedsNoColumns(t: Table, key: string, fallback: seq<Option<real>>)
    requires Rectangular(t)
    ensures |HistoryGet(t, key)| == |t.columns|
    ensures OrList(HistoryGet(t, key), fallback) ==
      if |t.columns| == 0 then fallback else HistoryGet(t, key)
  {
    var k := FindRow(t.rows, key);
    if k < |t.rows| {
      assert FirstMatch(t.rows, key, k);
      assert |t.rows[k].cells| == |t.columns|;
    }
  }

  /** The first `n` cells of a row (all of them when it is shorter). */
  function TakeCells(cells: seq<real>, n: nat): seq<real>
  {
    if |cells| <= n then cells else cells[..n]
  }

  /** `df.iloc[:, :n] if df.shape[1] >= n else df`: keep the first `n` columns. */
  function Truncate(t: Table, n: nat): (r: Table)
    ensures |r.columns| == if |t.columns| >= n then n else |t.columns|
    ensures r.columns == t.columns[..|r.columns|]
    ensures |r.rows| == |t.rows|
    ensures forall i :: 0 <= i < |t.rows| ==> r.rows[i].name == t.rows[i].name
    ensures forall i :: 0 <= i < |t.rows| ==>
      r.rows[i].cells == if |t.columns| >= n && |t.rows[i].cells| > n then t.rows[i].cells[..n] else t.rows[i].cells
    ensures Rectangular(t) ==> Rectangular(r)
  {
    if |t.columns| >= n then
      Table(t.columns[..n],
            seq(|t.rows|, i requires 0 <= i < |t.rows| => Row(t.rows[i].name, TakeCells(t.rows[i].cells, n))))
    else t
  }

  // ---------------------------------------------------------------------------
  // Derived ratios

  /** `a / b if a and b else None`. */
  function Quotient(a: Option<real>, b: Option<real>): (r: Option<real>)
    ensures r.Some? <==> Truthy(a) && Truthy(b)
    ensures r.Some? ==> r.value * b.value == a.value && r.value != 0.0
  {
    if Truthy(a) && Truthy(b) then Some(a.value / b.value) else None
  }

  /** `a - b if a and b else None`. */
  function Difference(a: Option<real>, b: Option<real>): (r: Option<real>)
    ensures r.Some? <==> Truthy(a) && Truthy(b)
    ensures r.Some? ==> r.value + b.value == a.value
  {
    if Truthy(a) && Truthy(b) then Some(a.value - b.value) else None
  }

  /** `num / (ta - tl) if num and (ta - tl) else None`. The subtraction is only
      evaluated when `num` is truthy, and raises a `TypeError` if either operand
      is `None`. */
  function EquityRatio(num: Option<real>, ta: Option<real>, tl: Option<real>): (r: Result<Option<real>>)
    ensures r.Err? <==> Truthy(num) && (ta.None? || tl.None?)
    ensures r.Ok? && r.value.Some? ==>
      Truthy(num) && ta.Some? && tl.Some? && ta.value != tl.value &&
      r.value.value * (ta.value - tl.value) == num.value
    ensures r.Ok? && r.value.None? ==> !Truthy(num) || ta.value == tl.value
    ensures r.Err? ==> r.error == TypeError
  {
    if !Truthy(num) then Ok(None)
    else if ta.None? || tl.None? then Err(TypeError)
    else if ta.value - tl.value == 0.0 then Ok(None)
    else Ok(Some(num.value / (ta.value - tl.value)))
  }

  // ---------------------------------------------------------------------------
  // The latest snapshot

  /** The income and balance-sheet figures of the latest period, looked up in
      source order; the continuing-operations income is consulted only when the
      net-income lookup gives nothing truthy. */
  datatype Balance = Balance(ni: Option<real>, ta: Option<real>, tl: Option<real>,
                             ca: Option<real>, cl: Option<real>, ltd: Option<real>)

  function LatestBalance(s: Statements): (r: Result<Balance>)
    ensures r.Ok? <==>
      && LatestGet(s.income, "Net Income").Ok?
      && (Truthy(LatestGet(s.income, "Net Income").value) ||
          LatestGet(s.income, "Net Income From Continuing Operations").Ok?)
      && LatestGet(s.balanceSheet, "Total Assets").Ok?
      && LatestGet(s.balanceSheet, "Total Liab").Ok?
      && LatestGet(s.balanceSheet, "Current Assets").Ok?
      && LatestGet(s.balanceSheet, "Current Liabilities").Ok?
      && LatestGet(s.balanceSheet, "Long Term Debt").Ok?
    ensures r.Err? ==> r.error == IndexError
    ensures r.Ok? ==> LatestGet(s.balanceSheet, "Total Assets") == Ok(r.value.ta)
    ensures r.Ok? ==> LatestGet(s.balanceSheet, "Total Liab") == Ok(r.value.tl)
    ensures r.Ok? ==> LatestGet(s.balanceSheet, "Current Assets") == Ok(r.value.ca)
    ensures r.Ok? ==> LatestGet(s.balanceSheet, "Current Liabilities") == Ok(r.value.cl)
    ensures r.Ok? ==> LatestGet(s.balanceSheet, "Long Term Debt") == Ok(r.value.ltd)
    ensures r.Ok? ==> LatestGet(s.income, "Net Income").Ok?
    ensures r.Ok? && Truthy(LatestGet(s.income, "Net Income").value) ==>
      r.value.ni == LatestGet(s.income, "Net Income").value
    ensures r.Ok? && !Truthy(LatestGet(s.income, "Net Income").value) ==>
      LatestGet(s.income, "Net Income From Continuing Operations") == Ok(r.value.ni)
  {
    var ni0 :- LatestGet(s.income, "Net Income");
    var ni :- if Truthy(ni0) then Ok(ni0) else LatestGet(s.income, "Net Income From Continuing Operations");
    var ta :- LatestGet(s.balanceSheet, "Total Assets");
    var tl :- LatestGet(s.balanceSheet, "Total Liab");
    var ca :- LatestGet(s.balanceSheet, "Current Assets");
    var cl :- LatestGet(s.balanceSheet, "Current Liabilities");
    var ltd :- LatestGet(s.balanceSheet, "Long Term Debt");
    Ok(Balance(ni, ta, tl, ca, cl, ltd))
  }

  /** The cash-flow figures of the latest period, looked up in source order. */
  datatype CashFlow = CashFlow(capex: Option<real>, dep: Option<real>, div: Option<real>, issuance: Option<real>)

  function LatestCashFlow(s: Statements): (r: Result<CashFlow>)
    ensures r.Ok? <==>
      && LatestGet(s.cashflow, "Capital Expenditure").Ok?
      && LatestGet(s.cashflow, "Depreciation And Amortization").Ok?
      && LatestGet(s.cashflow, "Cash Dividends Paid").Ok?
      && LatestGet(s.cashflow, "Issuance Of Capital Stock").Ok?
    ensures r.Err? ==> r.error == IndexError
    ensures r.Ok? ==> LatestGet(s.cashflow, "Capital Expenditure") == Ok(r.value.capex)
    ensures r.Ok? ==> LatestGet(s.cashflow, "Depreciation And Amortization") == Ok(r.value.dep)
    ensures r.Ok? ==> LatestGet(s.cashflow, "Cash Dividends Paid") == Ok(r.value.div)
    ensures r.Ok? ==> LatestGet(s.cashflow, "Issuance Of Capital Stock") == Ok(r.value.issuance)
  {
    var capex :- LatestGet(s.cashflow, "Capital Expenditure");
    var dep :- LatestGet(s.cashflow, "Depreciation And Amortization");
    var div :- LatestGet(s.cashflow, "Cash Dividends Paid");
    var issuance :- LatestGet(s.cashflow, "Issuance Of Capital Stock");
    Ok(CashFlow(capex, dep, div, issuance))
  }

  /** The snapshot record built from the looked-up figures and the quote. */
  function LatestRecord(b: Balance, c: CashFlow, roe: Option<real>, de: Option<real>, info: Info): (m: FinancialMetrics)
    ensures m.netIncome == b.ni && m.totalAssets == b.ta && m.totalLiabilities == b.tl
    ensures m.currentAssets == b.ca && m.currentLiabilities == b.cl && m.longTermDebt == b.ltd
    ensures m.capitalExpenditure == c.capex && m.depreciationAndAmortization == c.dep
    ensures m.dividendsAndOtherCashDistributions == c.div && m.issuanceOrPurchaseOfEquityShares == c.issuance
    ensures m.returnOnEquity == roe && m.debtToEquityRatio == de
    ensures m.outstandingShares == info.sharesOutstanding && m.operatingMargin == info.operatingMargins
    ensures m.marketCap == info.marketCap && m.period.None?
    ensures m.workingCapital.Some? <==> Truthy(b.ca) && Truthy(b.cl)
    ensures m.workingCapital.Some? ==> m.workingCapital.value + b.cl.value == b.ca.value
    ensures m.currentRatio == Quotient(b.ca, b.cl)
    ensures m.earningsPerShare == Quotient(b.ni, info.sharesOutstanding)
    ensures m.bookValuePerShare.Some? <==> Truthy(b.ta) && Truthy(b.tl) && Truthy(info.sharesOutstanding)
    ensures m.bookValuePerShare.Some? ==>
      m.bookValuePerShare.value * info.sharesOutstanding.value == b.ta.value - b.tl.value
    ensures m.priceToEarningsRatio == Quotient(info.currentPrice, m.earningsPerShare)
    ensures m.priceToBookRatio == Quotient(info.currentPrice, m.bookValuePerShare)
  {
    var shares := info.sharesOutstanding;
    var eps := Quotient(b.ni, shares);
    var bvps := if Truthy(b.ta) && Truthy(b.tl) && Truthy(shares)
                then Some((b.ta.value - b.tl.value) / shares.value) else None;
    FinancialMetrics(
      capitalExpenditure := c.capex,
      depreciationAndAmortization := c.dep,
      netIncome := b.ni,
      outstandingShares := shares,
      totalAssets := b.ta,
      totalLiabilities := b.tl,
      dividendsAndOtherCashDistributions := c.div,
      issuanceOrPurchaseOfEquityShares := c.issuance,
      returnOnEquity := roe,
      debtToEquityRatio := de,
      operatingMargin := info.operatingMargins,
      currentRatio := Quotient(b.ca, b.cl),
      marketCap := info.marketCap,
      period := None,
      earningsPerShare := eps,
      bookValuePerShare := bvps,
      priceToEarningsRatio := Quotient(info.currentPrice, eps),
      priceToBookRatio := Quotient(info.currentPrice, bvps),
      workingCapital := Difference(b.ca, b.cl),
      longTermDebt := b.ltd,
      currentAssets := b.ca,
      currentLiabilities := b.cl)
  }

  /** `get_latest_financial_metrics` once the statements are fetched: the income and
      balance-sheet lookups, the two equity ratios, then the cash-flow lookups. A lookup
      whose row has no cells, or an equity ratio over a missing figure, raises,
      and the first failure in that order is the one reported. */
  function LatestMetrics(d: TickerData): (r: Result<FinancialMetrics>)
    ensures LatestBalance(d.latest).Err? ==> r == Err(IndexError)
    ensures LatestBalance(d.latest).Ok? ==> var b := LatestBalance(d.latest).value;
      && (EquityRatio(b.ni, b.ta, b.tl).Err? || EquityRatio(b.tl, b.ta, b.tl).Err? ==> r == Err(TypeError))
      && (EquityRatio(b.ni, b.ta, b.tl).Ok? && EquityRatio(b.tl, b.ta, b.tl).Ok? ==>
            (r.Ok? <==> LatestCashFlow(d.latest).Ok?))
    ensures r.Err? ==> r.error == IndexError || r.error == TypeError
    ensures r.Ok? ==> var b := LatestBalance(d.latest).value;
      && LatestCashFlow(d.latest).Ok?
      && EquityRatio(b.ni, b.ta, b.tl) == Ok(r.value.returnOnEquity)
      && EquityRatio(b.tl, b.ta, b.tl) == Ok(r.value.debtToEquityRatio)
      && r.value == LatestRecord(b, LatestCashFlow(d.latest).value, r.value.returnOnEquity,
                                 r.value.debtToEquityRatio, d.info)
  {
    var b :- LatestBalance(d.latest);
    var roe :- EquityRatio(b.ni, b.ta, b.tl);
    var de :- EquityRatio(b.tl, b.ta, b.tl);
    var c :- LatestCashFlow(d.latest);
    Ok(LatestRecord(b, c, roe, de, d.info))
  }

  /** A present net income with no total-assets row makes the return-on-equity
      line raise, so the whole snapshot fails. */
  lemma LatestFailsOnIncomeWithoutAssets(d: TickerData)
    requires LatestGet(d.latest.income, "Net Income").Ok?
    requires Truthy(LatestGet(d.latest.income, "Net Income").value)
    requires NoMatch(d.latest.balanceSheet.rows, "Total Assets")
    requires LatestBalance(d.latest).Ok?
    ensures LatestMetrics(d) == Err(TypeError)
  {
    LatestGetSpec(d.latest.balanceSheet, "Total Assets");
  }

  // ---------------------------------------------------------------------------
  // The yearly history

  /** The rows the historical loader looks up, each as a list over the columns. */
  datatype Series = Series(
    netIncome: seq<Option<real>>,
    totalAssets: seq<Option<real>>,
    totalLiabilities: seq<Option<real>>,
    currentAssets: seq<Option<real>>,
    currentLiabilities: seq<Option<real>>,
    longTermDebt: seq<Option<real>>,
    capitalExpenditure: seq<Option<real>>,
    depreciation: seq<Option<real>>,
    dividends: seq<Option<real>>)

  /** The lookups of `get_historical_financial_metrics` after truncation to `periods` columns. */
  function YearlySeries(s: Statements, periods: nat): Series
  {
    var income := Truncate(s.income, periods);
    var balance := Truncate(s.balanceSheet, periods);
    var cashflow := Truncate(s.cashflow, periods);
    Series(
      netIncome := OrList(HistoryGet(income, "NetIncome"), HistoryGet(income, "NetIncomeContinuousOperations")),
      totalAssets := HistoryGet(balance, "TotalAssets"),
      totalLiabilities := OrList(OrList(HistoryGet(balance, "TotalLiab"), HistoryGet(balance, "TotalLiabilities")),
                                 HistoryGet(balance, "TotalLiabilitiesNetMinorityInterest")),
      currentAssets := HistoryGet(balance, "CurrentAssets"),
      currentLiabilities := HistoryGet(balance, "CurrentLiabilities"),
      longTermDebt := HistoryGet(balance, "LongTermDebt"),
      capitalExpenditure := HistoryGet(cashflow, "CapitalExpenditure"),
      depreciation := HistoryGet(cashflow, "DepreciationAndAmortization"),
      dividends := HistoryGet(cashflow, "CashDividendsPaid"))
  }

  /** Every list has an entry for each of the first `n` columns. */
  predicate Covers(x: Series, n: nat)
  {
    && n <= |x.netIncome| && n <= |x.totalAssets| && n <= |x.totalLiabilities|
    && n <= |x.currentAssets| && n <= |x.currentLiabilities| && n <= |x.longTermDebt|
    && n <= |x.capitalExpenditure| && n <= |x.depreciation| && n <= |x.dividends|
  }

  /** The record built for column `i`. The loader also passes `dividends_paid`
      and `debt_to_equity`, which are not fields of the record and are dropped,
      so those two fields stay `None`. */
  function PeriodRecord(x: Series, column: string, shares: Option<real>, i: nat): (r: FinancialMetrics)
    requires Covers(x, i + 1)
    ensures r.period == Some(column)
    ensures r.netIncome == x.netIncome[i] && r.totalAssets == x.totalAssets[i]
    ensures r.totalLiabilities == x.totalLiabilities[i]
    ensures r.currentAssets == x.currentAssets[i] && r.currentLiabilities == x.currentLiabilities[i]
    ensures r.longTermDebt == x.longTermDebt[i]
    ensures r.capitalExpenditure == x.capitalExpenditure[i] && r.depreciationAndAmortization == x.depreciation[i]
    ensures r.dividendsAndOtherCashDistributions.None? && r.debtToEquityRatio.None?
    ensures r.issuanceOrPurchaseOfEquityShares.None?
    ensures r.marketCap.None? && r.outstandingShares.None? && r.operatingMargin.None?
    ensures r.priceToEarningsRatio.None? && r.priceToBookRatio.None?
    ensures r.returnOnEquity == Quotient(r.netIncome, Difference(r.totalAssets, r.totalLiabilities))
    ensures r.bookValuePerShare == Quotient(Difference(r.totalAssets, r.totalLiabilities), shares)
    ensures r.earningsPerShare == Quotient(r.netIncome, shares)
    ensures r.currentRatio == Quotient(r.currentAssets, r.currentLiabilities)
    ensures r.workingCapital == Difference(r.currentAssets, r.currentLiabilities)
  {
    var ni, ta, tl := x.netIncome[i], x.totalAssets[i], x.totalLiabilities[i];
    var ca, cl := x.currentAssets[i], x.currentLiabilities[i];
    var equity := Difference(ta, tl);
    FinancialMetrics(
      capitalExpenditure := x.capitalExpenditure[i],
      depreciationAndAmortization := x.depreciation[i],
      netIncome := ni,
      outstandingShares := None,
      totalAssets := ta,
      totalLiabilities := tl,
      dividendsAndOtherCashDistributions := None,
      issuanceOrPurchaseOfEquityShares := None,
      returnOnEquity := Quotient(ni, equity),
      debtToEquityRatio := None,
      operatingMargin := None,
      currentRatio := Quotient(ca, cl),
      marketCap := None,
      period := Some(column),
      earningsPerShare := Quotient(ni, shares),
      bookValuePerShare := Quotient(equity, shares),
      priceToEarningsRatio := None,
      priceToBookRatio := None,
      workingCapital := Difference(ca, cl),
      longTermDebt := x.longTermDebt[i],
      currentAssets := ca,
      currentLiabilities := cl)
  }

  /** What the per-period equity, `ta - tl if ta and tl else None`, gives the two
      ratios over it. */
  lemma EquityQuotients(ni: Option<real>, ta: Option<real>, tl: Option<real>, shares: Option<real>)
    ensures Quotient(ni, Difference(ta, tl)).Some? <==>
      Truthy(ni) && Truthy(ta) && Truthy(tl) && ta.value != tl.value
    ensures Quotient(ni, Difference(ta, tl)).Some? ==>
      Quotient(ni, Difference(ta, tl)).value * (ta.value - tl.value) == ni.value
    ensures Quotient(Difference(ta, tl), shares).Some? <==>
      Truthy(ta) && Truthy(tl) && ta.value != tl.value && Truthy(shares)
    ensures Quotient(Difference(ta, tl), shares).Some? ==>
      Quotient(Difference(ta, tl), shares).value * shares.value == ta.value - tl.value
  {
    var equity := Difference(ta, tl);
    if equity.Some? {
      assert equity.value == ta.value - tl.value;
    }
  }

  /** The records of the first `|columns|` columns, in column order. */
  function PeriodRecords(x: Series, columns: seq<string>, shares: Option<real>): (r: seq<FinancialMetrics>)
    requires Covers(x, |columns|)
    ensures |r| == |columns|
    ensures forall i :: 0 <= i < |columns| ==> r[i] == PeriodRecord(x, columns[i], shares, i)
  {
    if columns == [] then []
    else
      var n := |columns| - 1;
      var front := columns[..n];
      assert forall i :: 0 <= i < n ==> front[i] == columns[i];
      PeriodRecords(x, front, shares) + [PeriodRecord(x, columns[n], shares, n)]
  }

  /** The quote fields written into the newest record after the loop. */
  function WithMarketData(first: FinancialMetrics, info: Info): (r: FinancialMetrics)
    ensures r.priceToEarningsRatio ==
      if Truthy(info.currentPrice) && Truthy(first.earningsPerShare)
      then Quotient(info.currentPrice, first.earningsPerShare) else first.priceToEarningsRatio
    ensures r.priceToBookRatio ==
      if Truthy(info.currentPrice) && Truthy(first.bookValuePerShare)
      then Quotient(info.currentPrice, first.bookValuePerShare) else first.priceToBookRatio
    ensures r.marketCap == info.marketCap && r.outstandingShares == info.sharesOutstanding
    ensures r.operatingMargin == info.operatingMargins
    ensures r.period == first.period && r.debtToEquityRatio == first.debtToEquityRatio
    ensures r.dividendsAndOtherCashDistributions == first.dividendsAndOtherCashDistributions
    ensures r.(priceToEarningsRatio := first.priceToEarningsRatio, priceToBookRatio := first.priceToBookRatio,
               outstandingShares := first.outstandingShares, operatingMargin := first.operatingMargin,
               marketCap := first.marketCap) == first
  {
    var price := info.currentPrice;
    first.(
      priceToEarningsRatio :=
        if Truthy(price) && Truthy(first.earningsPerShare)
        then Some(price.value / first.earningsPerShare.value) else first.priceToEarningsRatio,
      priceToBookRatio :=
        if Truthy(price) && Truthy(first.bookValuePerShare)
        then Some(price.value / first.bookValuePerShare.value) else first.priceToBookRatio,
      outstandingShares := info.sharesOutstanding,
      operatingMargin := info.operatingMargins,
      marketCap := info.marketCap)
  }

  /** `get_historical_financial_metrics` once the statements are fetched: one record
      per income-statement column (at most `periods`), quote fields on the first only.
      Zero columns, or a looked-up row shorter than the income statement, raise. */
  function HistoricalMetrics(d: TickerData, periods: nat): (r: Result<seq<FinancialMetrics>>)
    ensures |d.yearly.income.columns| == 0 || periods == 0 ==> r.Err?
    ensures var x, columns := YearlySeries(d.yearly, periods), Truncate(d.yearly.income, periods).columns;
      r.Err? <==> |columns| == 0 || !Covers(x, |columns|)
    ensures r.Err? ==> r.error == IndexError
    ensures r.Ok? ==> |r.value| == |Truncate(d.yearly.income, periods).columns| > 0
    ensures r.Ok? ==>
      var x, columns := YearlySeries(d.yearly, periods), Truncate(d.yearly.income, periods).columns;
      && r.value[0] == WithMarketData(PeriodRecord(x, columns[0], d.info.sharesOutstanding, 0), d.info)
      && forall i :: 0 < i < |r.value| ==> r.value[i] == PeriodRecord(x, columns[i], d.info.sharesOutstanding, i)
  {
    var x := YearlySeries(d.yearly, periods);
    var columns := Truncate(d.yearly.income, periods).columns;
    if |columns| == 0 || !Covers(x, |columns|) then Err(IndexError)
    else
      var records := PeriodRecords(x, columns, d.info.sharesOutstanding);
      Ok(records[0 := WithMarketData(records[0], d.info)])
  }

  /** The shape of a fetched history: at most `periods` records, one per column;
      dividends and debt-to-equity never set; quote fields on the first record only. */
  lemma HistoricalShape(d: TickerData, periods: nat)
    requires HistoricalMetrics(d, periods).Ok?
    ensures var h := HistoricalMetrics(d, periods).value;
      && 0 < |h| <= periods && |h| <= |d.yearly.income.columns|
      && (forall i :: 0 <= i < |h| ==>
            h[i].dividendsAndOtherCashDistributions.None? && h[i].debtToEquityRatio.None? &&
            h[i].period == Some(d.yearly.income.columns[i]))
      && (forall i :: 0 < i < |h| ==>
            h[i].marketCap.None? && h[i].outstandingShares.None? && h[i].operatingMargin.None? &&
            h[i].priceToEarningsRatio.None? && h[i].priceToBookRatio.None?)
      && h[0].marketCap == d.info.marketCap
      && h[0].outstandingShares == d.info.sharesOutstanding
      && h[0].operatingMargin == d.info.operatingMargins
  {
    var x := YearlySeries(d.yearly, periods);
    var columns := Truncate(d.yearly.income, periods).columns;
    RecordsShape(HistoricalMetrics(d, periods).value, x, columns, d.info);
  }

  /** The shape of records built one per column with the quote written into the first. */
  lemma RecordsShape(h: seq<FinancialMetrics>, x: Series, columns: seq<string>, info: Info)
    requires Covers(x, |columns|) && |h| == |columns| > 0
    requires h[0] == WithMarketData(PeriodRecord(x, columns[0], info.sharesOutstanding, 0), info)
    requires forall i :: 0 < i < |h| ==> h[i] == PeriodRecord(x, columns[i], info.sharesOutstanding, i)
    ensures forall i :: 0 <= i < |h| ==>
      h[i].dividendsAndOtherCashDistributions.None? && h[i].debtToEquityRatio.None? &&
      h[i].period == Some(columns[i])
    ensures forall i :: 0 < i < |h| ==>
      h[i].marketCap.None? && h[i].outstandingShares.None? && h[i].operatingMargin.None? &&
      h[i].priceToEarningsRatio.None? && h[i].priceToBookRatio.None?
    ensures h[0].marketCap == info.marketCap && h[0].outstandingShares == info.sharesOutstanding
    ensures h[0].operatingMargin == info.operatingMargins
  {
    forall i | 0 <= i < |h|
      ensures h[i].dividendsAndOtherCashDistributions.None? && h[i].debtToEquityRatio.None?
      ensures h[i].period == Some(columns[i])
    {
      var p := PeriodRecord(x, columns[i], info.sharesOutstanding, i);
      if i == 0 {
        assert h[0] == WithMarketData(p, info);
      } else {
        assert h[i] == p;
      }
    }
  }

  /** The records of one more column are those of the columns before it, then its own. */
  lemma PeriodRecordsExtend(x: Series, columns: seq<string>, shares: Option<real>, i: nat)
    requires i < |columns| && Covers(x, i + 1)
    ensures PeriodRecords(x, columns[..i + 1], shares) ==
            PeriodRecords(x, columns[..i], shares) + [PeriodRecord(x, columns[i], shares, i)]
  {
    assert columns[..i + 1][..i] == columns[..i];
  }

  /** The loader's loop: one record per column, in column order, raising on
      the first column some looked-up row has no entry for. */
  method CollectRecords(x: Series, columns: seq<string>, shares: Option<real>)
    returns (r: Result<seq<FinancialMetrics>>)
    ensures Covers(x, |columns|) ==> r == Ok(PeriodRecords(x, columns, shares))
    ensures !Covers(x, |columns|) ==> r == Err(IndexError)
  {
    var results: seq<FinancialMetrics> := [];
    var i := 0;
    while i < |columns|
      invariant 0 <= i <= |columns|
      invariant Covers(x, i)
      invariant results == PeriodRecords(x, columns[..i], shares)
    {
      if !Covers(x, i + 1) {
        assert !Covers(x, |columns|);
        return Err(IndexError);
      }
      PeriodRecordsExtend(x, columns, shares, i);
      results := results + [PeriodRecord(x, columns[i], shares, i)];
      i := i + 1;
    }
    assert columns[..i] == columns;
    r := Ok(results);
  }

  /** `get_historical_financial_metrics`: the loop, then the quote fields written
      into the first record. */
  method GetHistoricalMetrics(d: TickerData, periods: nat) returns (r: Result<seq<FinancialMetrics>>)
    ensures r == HistoricalMetrics(d, periods)
  {
    var x := YearlySeries(d.yearly, periods);
    var columns := Truncate(d.yearly.income, periods).columns;
    var records := CollectRecords(x, columns, d.info.sharesOutstanding);
    if records.Err? || |records.value| == 0 {
      return Err(IndexError);
    }
    var results := records.value;
    results := results[0 := WithMarketData(results[0], d.info)];
    r := Ok(results);
  }
}
