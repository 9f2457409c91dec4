/**
 * `process_financials`, `get_stock_financials` and the trailing-four-quarter figures of
 * reasoning/app/agent/utils/stock_utils.py: quarterly reports, as the market-data client
 * returns them, are folded into one table that maps every metric name to the ordered
 * list of `{date, value}` entries reported for it.
 */
module Financials {
  import opened Wrappers

  /** An attribute of an income statement: a data point carrying a value, or anything else. */
  datatype Attribute = Point(value: int) | NoValue

  datatype CashFlow = CashFlow(netCashFlow: Option<int>, netCashFlowFromFinancing: Option<int>)

  /** The three statements of one report; a missing statement is `None`. */
  datatype Statements = Statements(
    balanceSheet: Option<map<string, int>>,
    incomeStatement: Option<map<string, Attribute>>,
    cashFlowStatement: Option<CashFlow>)

  /** One quarterly report; `financials` is `None` when the report carries no statements. */
  datatype Report = Report(endDate: string, financials: Option<Statements>)

  datatype Entry = Entry(date: string, value: int)

  type Table = map<string, seq<Entry>>

  const NetCashFlow: string := "net_cash_flow"
  const NetCashFlowFinancing: string := "net_cash_flow_from_financing_activities"

  function BalancePart(s: Statements, date: string, k: string): seq<Entry> {
    if s.balanceSheet.Some? && k in s.balanceSheet.value then [Entry(date, s.balanceSheet.value[k])] else []
  }

  function IncomePart(s: Statements, date: string, k: string): seq<Entry> {
    if s.incomeStatement.Some? && k in s.incomeStatement.value && s.incomeStatement.value[k].Point?
    then [Entry(date, s.incomeStatement.value[k].value)]
    else []
  }

  function CashFlowPart(cf: Option<CashFlow>, date: string, k: string): seq<Entry> {
    (if k == NetCashFlow && cf.Some? && cf.value.netCashFlow.Some?
     then [Entry(date, cf.value.netCashFlow.value)] else [])
    + (if k == NetCashFlowFinancing && cf.Some? && cf.value.netCashFlowFromFinancing.Some?
       then [Entry(date, cf.value.netCashFlowFromFinancing.value)] else [])
  }

  /** What one report appends under key `k`: balance sheet first, then income statement, then cash flow. */
  function Contribution(r: Report, k: string): seq<Entry> {
    if r.financials.None? then []
    else
      var s := r.financials.value;
      BalancePart(s, r.endDate, k) + IncomePart(s, r.endDate, k) + CashFlowPart(s.cashFlowStatement, r.endDate, k)
  }

  /** Everything the reports append under `k`, in report order. */
  function Column(reports: seq<Report>, k: string): seq<Entry> {
    if reports == [] then [] else Contribution(reports[0], k) + Column(reports[1..], k)
  }

  function Get(t: Table, k: string): seq<Entry> {
    if k in t then t[k] else []
  }

  /** No key of `t` maps to an empty list: a key is created by the append that fills it. */
  ghost predicate NoEmptyList(t: Table) {
    forall k :: k in t ==> t[k] != []
  }

  /** `t` holds, under each key, exactly what the reports append under it, and no empty list. */
  ghost predicate Tabulates(t: Table, reports: seq<Report>) {
    && (forall k :: Get(t, k) == Column(reports, k))
    && NoEmptyList(t)
  }

  /** `if key not in data: data[key] = []` followed by `data[key].append(e)`. */
  function Append(t: Table, key: string, e: Entry): (r: Table)
    ensures forall k :: Get(r, k) == Get(t, k) + (if k == key then [e] else [])
    ensures NoEmptyList(t) ==> NoEmptyList(r)
  {
    t[key := Get(t, key) + [e]]
  }

  /** The loop over the balance sheet: every item is appended under its own key. */
  method AppendSheet(data: Table, sheet: map<string, int>, date: string) returns (out: Table)
    requires NoEmptyList(data)
    ensures NoEmptyList(out)
    ensures forall k :: Get(out, k) == Get(data, k) + BalancePart(Statements(Some(sheet), None, None), date, k)
  {
    out := data;
    var pending := sheet.Keys;
    while pending != {}
      invariant pending <= sheet.Keys
      invariant NoEmptyList(out)
      invariant forall k :: Get(out, k) == Get(data, k) + (if k in sheet && k !in pending then [Entry(date, sheet[k])] else [])
      decreases pending
    {
      var key :| key in pending;
      out := Append(out, key, Entry(date, sheet[key]));
      pending := pending - {key};
    }
  }

  /** The loop over the income statement: only data points are appended. */
  method AppendAttributes(data: Table, attributes: map<string, Attribute>, date: string) returns (out: Table)
    requires NoEmptyList(data)
    ensures NoEmptyList(out)
    ensures forall k :: Get(out, k) == Get(data, k) + IncomePart(Statements(None, Some(attributes), None), date, k)
  {
    out := data;
    var pending := attributes.Keys;
    while pending != {}
      invariant pending <= attributes.Keys
      invariant NoEmptyList(out)
      invariant forall k :: Get(out, k) == Get(data, k) + (if k in attributes && k !in pending && attributes[k].Point? then [Entry(date, attributes[k].value)] else [])
      decreases pending
    {
      var key :| key in pending;
      if attributes[key].Point? {
        out := Append(out, key, Entry(date, attributes[key].value));
      }
      pending := pending - {key};
    }
  }

  /** The two cash-flow figures, each appended when present. */
  function AppendCashFlow(t: Table, cf: Option<CashFlow>, date: string): (r: Table)
    ensures forall k :: Get(r, k) == Get(t, k) + CashFlowPart(cf, date, k)
    ensures NoEmptyList(t) ==> NoEmptyList(r)
  {
    var t1 := if cf.Some? && cf.value.netCashFlow.Some?
      then Append(t, NetCashFlow, Entry(date, cf.value.netCashFlow.value)) else t;
    if cf.Some? && cf.value.netCashFlowFromFinancing.Some?
    then Append(t1, NetCashFlowFinancing, Entry(date, cf.value.netCashFlowFromFinancing.value))
    else t1
  }

  /** Regrouping the four parts; kept as a lemma so that `AppendReport` stays within its proof budget. */
  lemma ConcatAssociates(a: seq<Entry>, b: seq<Entry>, c: seq<Entry>, d: seq<Entry>)
    ensures a + b + c + d == a + (b + c + d)
  {
  }

  /** One iteration of the loop over reports: balance sheet, income statement, then the two cash-flow figures. */
  method AppendReport(data: Table, statements: Statements, date: string) returns (out: Table)
    requires NoEmptyList(data)
    ensures NoEmptyList(out)
    ensures forall k :: Get(out, k) == Get(data, k) + Contribution(Report(date, Some(statements)), k)
  {
    var afterBalance := data;
    if statements.balanceSheet.Some? {
      afterBalance := AppendSheet(data, statements.balanceSheet.value, date);
    }
    assert forall k :: Get(afterBalance, k) == Get(data, k) + BalancePart(statements, date, k);
    var afterIncome := afterBalance;
    if statements.incomeStatement.Some? {
      afterIncome := AppendAttributes(afterBalance, statements.incomeStatement.value, date);
    }
    assert forall k :: Get(afterIncome, k) == Get(afterBalance, k) + IncomePart(statements, date, k);
    out := AppendCashFlow(afterIncome, statements.cashFlowStatement, date);
    forall k
      ensures Get(out, k) == Get(data, k) + Contribution(Report(date, Some(statements)), k)
    {
      var b, c, f := BalancePart(statements, date, k), IncomePart(statements, date, k), CashFlowPart(statements.cashFlowStatement, date, k);
      assert Get(out, k) == Get(data, k) + b + c + f;
      ConcatAssociates(Get(data, k), b, c, f);
    }
  }

  /**
   * `process_financials`: a report without statements raises (an attribute read on None),
   * which discards the table built so far.
   */
  method ProcessFinancials(reports: seq<Report>) returns (r: Result<Table>)
    ensures r.Err? <==> exists i :: 0 <= i < |reports| && reports[i].financials.None?
    ensures r.Ok? ==> Tabulates(r.value, reports)
  {
    var data: Table := map[];
    var i := 0;
    while i < |reports|
      invariant 0 <= i <= |reports|
      invariant forall j :: 0 <= j < i ==> reports[j].financials.Some?
      invariant Tabulates(data, reports[..i])
    {
      var item := reports[i];
      if item.financials.None? {
        return Err("AttributeError");
      }
      var next := AppendReport(data, item.financials.value, item.endDate);
      assert reports[..i + 1] == reports[..i] + [item];
      forall k
        ensures Column(reports[..i + 1], k) == Column(reports[..i], k) + Contribution(item, k)
      {
        ColumnAppend(reports[..i], [item], k);
        assert Column([item], k) == Contribution(item, k) + Column([item][1..], k);
      }
      data := next;
      i := i + 1;
    }
    assert reports[..i] == reports;
    return Ok(data);
  }

  /** `get_stock_financials`: the table on success, `None` when fetching or processing raised. */
  method GetStockFinancials(fetched: Option<seq<Report>>) returns (r: Option<Table>)
    ensures r.Some? <==> fetched.Some? && forall i :: 0 <= i < |fetched.value| ==> fetched.value[i].financials.Some?
    ensures r.Some? ==> Tabulates(r.value, fetched.value)
  {
    if fetched.None? {
      return None;
    }
    var processed := ProcessFinancials(fetched.value);
    if processed.Err? {
      return None;
    }
    return Some(processed.value);
  }

  /** The table lists reports in order: the entries of earlier reports come before those of later ones. */
  lemma {:induction false} ColumnAppend(earlier: seq<Report>, later: seq<Report>, k: string)
    ensures Column(earlier + later, k) == Column(earlier, k) + Column(later, k)
    decreases |earlier|
  {
    if earlier == [] {
      assert earlier + later == later;
    } else {
      assert (earlier + later)[0] == earlier[0];
      assert (earlier + later)[1..] == earlier[1..] + later;
      ColumnAppend(earlier[1..], later, k);
      assert (Contribution(earlier[0], k) + Column(earlier[1..], k)) + Column(later, k)
          == Contribution(earlier[0], k) + (Column(earlier[1..], k) + Column(later, k));
    }
  }

  /** Every entry carries the end date of a report that had statements. */
  lemma {:induction false} EntriesAreDated(reports: seq<Report>, k: string, e: Entry)
    requires e in Column(reports, k)
    ensures exists j :: 0 <= j < |reports| && reports[j].financials.Some? && e.date == reports[j].endDate
    decreases |reports|
  {
    if e in Contribution(reports[0], k) {
      assert reports[0].financials.Some? && e.date == reports[0].endDate;
    } else {
      var rest := reports[1..];
      EntriesAreDated(rest, k, e);
      var j :| 0 <= j < |rest| && rest[j].financials.Some? && e.date == rest[j].endDate;
      assert reports[j + 1] == rest[j];
    }
  }

  /** A key with a value in neither statement of a report, and not a cash-flow figure. */
  predicate Unreported(r: Report, k: string) {
    r.financials.Some? ==>
      var s := r.financials.value;
      && (s.balanceSheet.Some? ==> k !in s.balanceSheet.value)
      && (s.incomeStatement.Some? && k in s.incomeStatement.value ==> s.incomeStatement.value[k].NoValue?)
  }

  /**
   * Income-statement attributes without a value never create a key: a name no report
   * gives a value for is absent from the table, not mapped to an empty list.
   */
  lemma ValuelessKeyAbsent(t: Table, reports: seq<Report>, k: string)
    requires Tabulates(t, reports)
    requires k != NetCashFlow && k != NetCashFlowFinancing
    requires forall j :: 0 <= j < |reports| ==> Unreported(reports[j], k)
    ensures k !in t
  {
    ColumnEmpty(reports, k);
    assert Get(t, k) == [];
  }

  lemma {:induction false} ColumnEmpty(reports: seq<Report>, k: string)
    requires k != NetCashFlow && k != NetCashFlowFinancing
    requires forall j :: 0 <= j < |reports| ==> Unreported(reports[j], k)
    ensures Column(reports, k) == []
    decreases |reports|
  {
    if reports != [] {
      assert Unreported(reports[0], k);
      ColumnEmpty(reports[1..], k);
    }
  }

  /** The cash-flow figure `k` names in a report, when the report has it. */
  function CashFlowFigure(r: Report, k: string): Option<int> {
    if r.financials.None? || r.financials.value.cashFlowStatement.None? then None
    else
      var cf := r.financials.value.cashFlowStatement.value;
      if k == NetCashFlow then cf.netCashFlow
      else if k == NetCashFlowFinancing then cf.netCashFlowFromFinancing
      else None
  }

  /** The number of reports that carry the cash-flow figure `k`. */
  function FigureCount(reports: seq<Report>, k: string): nat {
    if reports == [] then 0
    else (if CashFlowFigure(reports[0], k).Some? then 1 else 0) + FigureCount(reports[1..], k)
  }

  /**
   * When no statement reuses the name, each of the two cash-flow figures lists one entry
   * per report that carries it.
   */
  lemma {:induction false} CashFlowOnePerReport(reports: seq<Report>, k: string)
    requires k == NetCashFlow || k == NetCashFlowFinancing
    requires forall j :: 0 <= j < |reports| ==> Unreported(reports[j], k)
    ensures |Column(reports, k)| == FigureCount(reports, k)
    decreases |reports|
  {
    if reports != [] {
      assert Unreported(reports[0], k);
      CashFlowOnePerReport(reports[1..], k);
    }
  }

  /**
   * A name found in both the balance sheet and, with a value, the income statement of
   * one report is listed twice under the same date, balance-sheet value first.
   */
  lemma SharedNameListedTwice(date: string, sheet: map<string, int>, attributes: map<string, Attribute>, k: string)
    requires k in sheet && k in attributes && attributes[k].Point?
    requires k != NetCashFlow && k != NetCashFlowFinancing
    ensures Column([Report(date, Some(Statements(Some(sheet), Some(attributes), None)))], k)
         == [Entry(date, sheet[k]), Entry(date, attributes[k].value)]
  {
    var rs := [Report(date, Some(Statements(Some(sheet), Some(attributes), None)))];
    assert rs[1..] == [];
  }

  const Revenues: string := "revenues"
  const BasicEps: string := "basic_earnings_per_share"

  /** Trailing twelve-month revenue and earnings per share, each with the date of its first entry. */
  datatype Trailing = Trailing(revenue: int, revenueDate: string, eps: int, epsDate: string)

  function SumValues(es: seq<Entry>): int {
    if es == [] then 0 else es[0].value + SumValues(es[1..])
  }

  /**
   * The trailing figures `get_stock_fundamentals` derives from the table: `None` for the
   * table (a failed fetch) and a missing "revenues" raise; "basic_earnings_per_share" is
   * looked up only when there are four revenues; the figures exist when both lists have four.
   */
  function TrailingFigures(financials: Option<Table>): (r: Result<Option<Trailing>>)
    ensures r.Err? <==>
      || financials.None?
      || Revenues !in financials.value
      || (4 <= |financials.value[Revenues]| && BasicEps !in financials.value)
    ensures r.Ok? && r.value.Some? <==>
      && financials.Some? && Revenues in financials.value && BasicEps in financials.value
      && 4 <= |financials.value[Revenues]| && 4 <= |financials.value[BasicEps]|
  {
    if financials.None? then Err("TypeError")
    else if Revenues !in financials.value then Err("KeyError")
    else if |financials.value[Revenues]| < 4 then Ok(None)
    else if BasicEps !in financials.value then Err("KeyError")
    else if |financials.value[BasicEps]| < 4 then Ok(None)
    else
      var revenues := financials.value[Revenues];
      var eps := financials.value[BasicEps];
      Ok(Some(Trailing(SumValues(revenues[..4]), revenues[0].date, SumValues(eps[..4]), eps[0].date)))
  }

  /** The figures add up the first four entries of each list and are dated by the first. */
  lemma TrailingSumsFirstFour(t: Table)
    requires TrailingFigures(Some(t)).Ok? && TrailingFigures(Some(t)).value.Some?
    ensures var f := TrailingFigures(Some(t)).value.value;
      var rs, es := t[Revenues], t[BasicEps];
      && f.revenue == rs[0].value + rs[1].value + rs[2].value + rs[3].value
      && f.eps == es[0].value + es[1].value + es[2].value + es[3].value
      && f.revenueDate == rs[0].date && f.epsDate == es[0].date
  {
    SumFirstFour(t[Revenues]);
    SumFirstFour(t[BasicEps]);
  }

  lemma SumFirstFour(es: seq<Entry>)
    requires 4 <= |es|
    ensures SumValues(es[..4]) == es[0].value + es[1].value + es[2].value + es[3].value
  {
    var f := es[..4];
    assert f[1..][1..][1..][1..] == [];
    assert SumValues(f[1..][1..][1..]) == es[3].value;
    assert SumValues(f[1..][1..]) == es[2].value + es[3].value;
    assert SumValues(f[1..]) == es[1].value + es[2].value + es[3].value;
  }

  /** Entries after the fourth never change the trailing figures. */
  lemma OlderQuartersIgnored(t: Table, older: seq<Entry>, olderEps: seq<Entry>)
    requires Revenues in t && BasicEps in t && 4 <= |t[Revenues]| && 4 <= |t[BasicEps]|
    ensures TrailingFigures(Some(t[Revenues := t[Revenues] + older][BasicEps := t[BasicEps] + olderEps]))
         == TrailingFigures(Some(t))
  {
    var u := t[Revenues := t[Revenues] + older][BasicEps := t[BasicEps] + olderEps];
    assert u[Revenues][..4] == t[Revenues][..4];
    assert u[BasicEps][..4] == t[BasicEps][..4];
  }
}
