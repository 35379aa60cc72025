/**
 * server/routes/reports.js: the read-only reports of the Node server over
 * the user's invoices and clients: revenue per period, invoice ageing,
 * per-client totals, the dashboard figures and the data export.
 *
 * Dates are day numbers (`Calendar`); `today` is `CURRENT_DATE`, and `NOW()`
 * is a moment of that day after midnight. SQL aggregates follow SQL's NULL
 * rules: `SUM` skips NULLs and is NULL over no values, and a comparison with
 * NULL keeps the row out of a `WHERE`.
 */
module NodeReports {
  import opened Wrappers
  import Tables
  import Grouping
  import Calendar
  import CsvHelper
  import opened NodeDb
  import NodeInvoices

  const InvalidExportType: string := "Invalid export type"

  // ---------------------------------------------------------------------------
  // SQL aggregates.

  /** `SUM(f)`: the sum of the non-NULL values, NULL when there are none. */
  function SqlSum<T>(rows: seq<T>, f: T -> Option<real>): (r: Option<real>)
    ensures r.None? <==> forall i :: 0 <= i < |rows| ==> f(rows[i]).None?
  {
    if rows == [] then None
    else
      var rest := SqlSum(rows[1..], f);
      assert forall i :: 1 <= i < |rows| ==> rows[i] == rows[1..][i - 1];
      if f(rows[0]).None? then rest
      else if rest.None? then f(rows[0])
      else Some(f(rows[0]).value + rest.value)
  }

  /** A sum over values that are all present and positive is present and positive. */
  lemma {:induction false} SqlSumPositive<T>(rows: seq<T>, f: T -> Option<real>)
    requires forall x :: x in rows ==> f(x).Some? && f(x).value > 0.0
    ensures rows != [] ==> SqlSum(rows, f).Some? && SqlSum(rows, f).value > 0.0
  {
    if |rows| > 1 {
      assert rows[0] in rows;
      assert forall x :: x in rows[1..] ==> x in rows;
      SqlSumPositive(rows[1..], f);
    }
  }

  /** When every value is present, `SUM` is the plain total. */
  lemma {:induction false} SqlSumTotal<T>(rows: seq<T>, f: T -> Option<real>, w: T -> real)
    requires rows != []
    requires forall x :: x in rows ==> f(x) == Some(w(x))
    ensures SqlSum(rows, f) == Some(Grouping.Total(rows, w))
  {
    assert rows[0] in rows;
    if |rows| > 1 {
      assert forall x :: x in rows[1..] ==> x in rows;
      SqlSumTotal(rows[1..], f, w);
    }
  }

  function Total(inv: NInvoice): Option<real> { inv.total }
  function Paid(inv: NInvoice): real { inv.paidAmount }

  /** `total - paid_amount`: NULL when the total is. */
  function Balance(inv: NInvoice): Option<real>
  {
    if inv.total.Some? then Some(inv.total.value - inv.paidAmount) else None
  }

  /** `status != 'cancelled'`, which a NULL status does not satisfy. */
  predicate NotCancelled(inv: NInvoice)
  {
    inv.status.Some? && inv.status.value != "cancelled"
  }

  // ---------------------------------------------------------------------------
  // Revenue over time.

  /** An `INTERVAL '<n> days'` or `INTERVAL '<n> months'`. */
  datatype Interval = Days(n: nat) | Months(n: nat)

  /** The look-back interval and the `date_trunc` unit of a revenue report. */
  datatype Window = Window(interval: Interval, unit: string)

  /** The `period` query parameter, '6months' when it is absent or unknown. */
  function PeriodWindow(period: Option<string>): (w: Window)
    ensures w.unit == "day" <==> period == Some("30days")
    ensures w.unit == "week" <==> period == Some("3months")
    ensures w.unit == "month" <==> period != Some("30days") && period != Some("3months")
    ensures w.interval == Months(6) <==> period != Some("30days") && period != Some("3months") && period != Some("12months")
    ensures w.unit == "day" ==> w.interval == Days(30)
    ensures w.unit == "week" ==> w.interval == Months(3)
  {
    if period == Some("30days") then Window(Days(30), "day")
    else if period == Some("3months") then Window(Months(3), "week")
    else if period == Some("12months") then Window(Months(12), "month")
    else Window(Months(6), "month")
  }

  /**
   * The first issue date `issue_date >= NOW() - INTERVAL` admits. `NOW()` is
   * after midnight, so the day the interval reaches back to is itself left
   * out: a 30-day window holds today and the 29 days before it.
   */
  function WindowStart(today: int, interval: Interval): (since: int)
    ensures interval.Days? ==> since == today - interval.n + 1
    ensures interval.Months? ==> since == Calendar.MonthsBack(today, interval.n) + 1
  {
    match interval
    case Days(n) => today - n + 1
    case Months(n) => Calendar.MonthsBack(today, n) + 1
  }

  /** The 30-day window counts an invoice exactly when it is issued within the last 30 days or later. */
  lemma ThirtyDayWindow(inv: NInvoice, user: int, today: int)
    ensures Counted(inv, user, WindowStart(today, PeriodWindow(Some("30days")).interval))
            <==> inv.userId == Some(user) && NotCancelled(inv) && inv.issueDate > today - 30
  {
  }

  /** On 2026-08-31 the six-month window opens on 2026-03-01, the day after the clamped 2026-02-28. */
  lemma SixMonthWindowClamps()
    ensures WindowStart(20696, PeriodWindow(None).interval) == 20513
  {
    Calendar.MonthsBackClamps();
  }

  /** `date_trunc(unit, d)` for the three units a window uses. */
  function Truncate(unit: string, d: int): int
  {
    if unit == "day" then d
    else if unit == "week" then Calendar.WeekStart(d)
    else Calendar.MonthStart(d)
  }

  function PeriodKey(unit: string): NInvoice -> int
  {
    (inv: NInvoice) => Truncate(unit, inv.issueDate)
  }

  /** The invoices a revenue query counts: the user's, issued from `since` on, not cancelled. */
  predicate Counted(inv: NInvoice, user: int, since: int)
  {
    inv.userId == Some(user) && inv.issueDate >= since && NotCancelled(inv)
  }

  function CountedRows(db: NodeDatabase, user: int, since: int): (rows: seq<NInvoice>)
    reads db
    ensures forall id :: id in db.invoices && Counted(db.invoices[id], user, since) ==> db.invoices[id] in rows
    ensures forall x :: x in rows ==> x in db.invoices.Values && Counted(x, user, since)
  {
    Tables.Select(db.invoices, (inv: NInvoice) => Counted(inv, user, since))
  }

  /** One row of the revenue report. */
  datatype RevenueRow = RevenueRow(period: int, revenue: Option<real>, invoiceCount: nat, collected: real)

  function Bucket(rows: seq<NInvoice>, key: NInvoice -> int, p: int): RevenueRow
  {
    RevenueRow(p, SqlSum(Grouping.WithKey(rows, key, p), Total), Grouping.CountKey(rows, key, p),
               Grouping.SumKey(rows, key, p, Paid))
  }

  function Buckets(rows: seq<NInvoice>, key: NInvoice -> int, ps: seq<int>): (r: seq<RevenueRow>)
    ensures |r| == |ps| && forall i :: 0 <= i < |ps| ==> r[i] == Bucket(rows, key, ps[i])
  {
    if ps == [] then [] else [Bucket(rows, key, ps[0])] + Buckets(rows, key, ps[1..])
  }

  /** The periods the rows fall in, ascending. */
  function PeriodsOf(rows: seq<NInvoice>, key: NInvoice -> int): (ps: seq<int>)
    ensures Tables.StrictlyIncreasing(ps)
    ensures forall p :: p in ps <==> exists x :: x in rows && key(x) == p
  {
    Tables.SortedIds(set x | x in rows :: key(x))
  }

  /**
   * The `GROUP BY DATE_TRUNC(unit, issue_date) ORDER BY period` rows over the
   * invoices issued from `since` on: one per period holding a counted invoice,
   * in ascending period order.
   */
  function PeriodRows(db: NodeDatabase, user: int, unit: string, since: int): (r: seq<RevenueRow>)
    reads db
    ensures forall i, j :: 0 <= i < j < |r| ==> r[i].period < r[j].period
    ensures forall i :: 0 <= i < |r| ==> r[i].invoiceCount > 0
    ensures forall i :: 0 <= i < |r| ==> r[i] == Bucket(CountedRows(db, user, since), PeriodKey(unit), r[i].period)
  {
    var rows := CountedRows(db, user, since);
    var key := PeriodKey(unit);
    var ps := PeriodsOf(rows, key);
    PeriodsCounted(rows, key, ps);
    var buckets := Buckets(rows, key, ps);
    BucketsOfPeriods(rows, key, ps, buckets);
    buckets
  }

  /**
   * `GET /api/reports/revenue`: the period rows of the window the `period`
   * parameter picks, reaching back from `today`.
   */
  function Revenue(db: NodeDatabase, user: int, period: Option<string>, today: int, fault: bool): (r: Outcome<seq<RevenueRow>>)
    reads db
    ensures fault <==> r.Fail?
    ensures r.Fail? ==> r == Fail(500, DbError)
    ensures r.Ok? ==> forall i, j :: 0 <= i < j < |r.value| ==> r.value[i].period < r.value[j].period
    ensures r.Ok? ==> forall i :: 0 <= i < |r.value| ==> r.value[i].invoiceCount > 0
    ensures r.Ok? ==>
              var w := PeriodWindow(period);
              forall i :: 0 <= i < |r.value| ==>
                r.value[i] == Bucket(CountedRows(db, user, WindowStart(today, w.interval)), PeriodKey(w.unit), r.value[i].period)
  {
    if fault then Fail(500, DbError)
    else
      var w := PeriodWindow(period);
      Ok(PeriodRows(db, user, w.unit, WindowStart(today, w.interval)))
  }

  /** One bucket per period of `ps`, in ascending order, none of them empty. */
  lemma BucketsOfPeriods(rows: seq<NInvoice>, key: NInvoice -> int, ps: seq<int>, r: seq<RevenueRow>)
    requires Tables.StrictlyIncreasing(ps)
    requires forall p :: p in ps ==> Grouping.CountKey(rows, key, p) > 0
    requires r == Buckets(rows, key, ps)
    ensures forall i, j :: 0 <= i < j < |r| ==> r[i].period < r[j].period
    ensures forall i :: 0 <= i < |r| ==> r[i].invoiceCount > 0
    ensures forall i :: 0 <= i < |r| ==> r[i] == Bucket(rows, key, r[i].period)
  {
    forall i | 0 <= i < |r|
      ensures r[i] == Bucket(rows, key, ps[i]) && r[i].period == ps[i] && r[i].invoiceCount > 0
    {
      assert ps[i] in ps;
    }
  }

  lemma PeriodsCounted(rows: seq<NInvoice>, key: NInvoice -> int, ps: seq<int>)
    requires forall p :: p in ps ==> exists x :: x in rows && key(x) == p
    ensures forall p :: p in ps ==> Grouping.CountKey(rows, key, p) > 0
  {
    forall p | p in ps ensures Grouping.CountKey(rows, key, p) > 0 {
      var x :| x in rows && key(x) == p;
      var i :| 0 <= i < |rows| && rows[i] == x;
      CountKeyAt(rows, key, i);
    }
  }

  lemma {:induction false} CountKeyAt<T, K>(rows: seq<T>, key: T -> K, i: nat)
    requires i < |rows|
    ensures Grouping.CountKey(rows, key, key(rows[i])) > 0
  {
    if i > 0 {
      CountKeyAt(rows[1..], key, i - 1);
    }
  }

  function CountSum(r: seq<RevenueRow>): nat
  {
    if r == [] then 0 else r[0].invoiceCount + CountSum(r[1..])
  }

  function CollectedSum(r: seq<RevenueRow>): real
  {
    if r == [] then 0.0 else r[0].collected + CollectedSum(r[1..])
  }

  lemma {:induction false} BucketSums(rows: seq<NInvoice>, key: NInvoice -> int, ps: seq<int>)
    ensures CountSum(Buckets(rows, key, ps)) == Grouping.CountsOver(rows, key, ps)
    ensures CollectedSum(Buckets(rows, key, ps)) == Grouping.SumsOver(rows, key, ps, Paid)
  {
    if ps != [] {
      BucketSums(rows, key, ps[1..]);
      assert Buckets(rows, key, ps)[1..] == Buckets(rows, key, ps[1..]);
    }
  }

  /**
   * The periods partition the counted invoices: the counts add up to their
   * number and the collected amounts to their total paid amount.
   */
  lemma RevenuePartition(db: NodeDatabase, user: int, unit: string, since: int)
    ensures CountSum(PeriodRows(db, user, unit, since)) == |CountedRows(db, user, since)|
    ensures CollectedSum(PeriodRows(db, user, unit, since)) == Grouping.Total(CountedRows(db, user, since), Paid)
  {
    var rows := CountedRows(db, user, since);
    var key := PeriodKey(unit);
    var ps := PeriodsOf(rows, key);
    assert Grouping.Distinct(ps);
    assert forall i :: 0 <= i < |rows| ==> key(rows[i]) in ps by {
      forall i | 0 <= i < |rows| ensures key(rows[i]) in ps {
        assert rows[i] in rows;
      }
    }
    BucketSums(rows, key, ps);
    Grouping.CountsPartition(rows, key, ps);
    Grouping.SumsPartition(rows, key, ps, Paid);
  }

  // ---------------------------------------------------------------------------
  // Invoice ageing.

  const Brackets: seq<string> := ["current", "1-30 days", "31-60 days", "61-90 days", "90+ days"]

  /**
   * The `CASE` over `due_date` against `CURRENT_DATE`. Every comparison with a
   * NULL due date fails, so such an invoice lands in '90+ days'.
   */
  function AgeBracket(due: Option<int>, today: int): (b: string)
    ensures b in Brackets
    ensures b == "current" <==> due.Some? && due.value >= today
    ensures b == "1-30 days" <==> due.Some? && today - 30 <= due.value < today
    ensures b == "31-60 days" <==> due.Some? && today - 60 <= due.value < today - 30
    ensures b == "61-90 days" <==> due.Some? && today - 90 <= due.value < today - 60
    ensures b == "90+ days" <==> due.None? || due.value < today - 90
  {
    if due.Some? && due.value >= today then "current"
    else if due.Some? && due.value >= today - 30 then "1-30 days"
    else if due.Some? && due.value >= today - 60 then "31-60 days"
    else if due.Some? && due.value >= today - 90 then "61-90 days"
    else "90+ days"
  }

  /** The position of a bracket in `Brackets`: older brackets come later. */
  function Age(b: string): (n: nat)
    ensures b in Brackets ==> n < |Brackets| && Brackets[n] == b
  {
    if b == "current" then 0
    else if b == "1-30 days" then 1
    else if b == "31-60 days" then 2
    else if b == "61-90 days" then 3
    else 4
  }

  /** As the days pass an invoice only moves to older brackets. */
  lemma BracketsOnlyAge(due: Option<int>, today: int, later: int)
    requires today <= later
    ensures Age(AgeBracket(due, today)) <= Age(AgeBracket(due, later))
  {
  }

  /** The invoices the ageing report lists: the user's unpaid sent, overdue or partially paid ones. */
  predicate Aged(inv: NInvoice, user: int)
  {
    inv.userId == Some(user)
    && inv.status.Some? && (inv.status.value == "sent" || inv.status.value == "overdue" || inv.status.value == "partially_paid")
    && Balance(inv).Some? && Balance(inv).value > 0.0
  }

  /** One row of the ageing query. */
  datatype AgingRow = AgingRow(
    clientName: Option<string>, invoiceNumber: Option<string>, issueDate: int, dueDate: Option<int>,
    total: real, paidAmount: real, balance: real, bracket: string)

  function AgingRowOf(db: NodeDatabase, inv: NInvoice, today: int): AgingRow
    reads db
    requires inv.total.Some?
  {
    AgingRow(NodeInvoices.ClientColumn(NodeInvoices.JoinedClient(db, inv.clientId), (c: NClient) => c.name),
             inv.invoiceNumber, inv.issueDate, inv.dueDate, inv.total.value, inv.paidAmount,
             inv.total.value - inv.paidAmount, AgeBracket(inv.dueDate, today))
  }

  function AgingRowsOf(db: NodeDatabase, invs: seq<NInvoice>, today: int): (rows: seq<AgingRow>)
    reads db
    requires forall x :: x in invs ==> x.total.Some?
    ensures |rows| == |invs| && forall i :: 0 <= i < |invs| ==> rows[i] == AgingRowOf(db, invs[i], today)
    ensures forall i :: 0 <= i < |invs| ==> rows[i].balance == invs[i].total.value - invs[i].paidAmount
  {
    if invs == [] then [] else [AgingRowOf(db, invs[0], today)] + AgingRowsOf(db, invs[1..], today)
  }

  /** `ORDER BY i.due_date ASC`: earlier due dates first, invoices without one last. */
  predicate DueFirst(a: NInvoice, b: NInvoice)
  {
    b.dueDate.None? || (a.dueDate.Some? && a.dueDate.value <= b.dueDate.value)
  }

  /** The aged invoices of `user`, in the order the ageing query returns them. */
  function AgedInvoices(db: NodeDatabase, user: int): (invs: seq<NInvoice>)
    reads db
    ensures forall id :: id in db.invoices && Aged(db.invoices[id], user) ==> db.invoices[id] in invs
    ensures forall x :: x in invs ==> x in db.invoices.Values && Aged(x, user)
    ensures Tables.SortedBy(invs, DueFirst)
  {
    var found := Tables.Select(db.invoices, (inv: NInvoice) => Aged(inv, user));
    assert Tables.TotalPreorder(found, DueFirst);
    Tables.OrderBy(found, DueFirst)
  }

  /**
   * The rows of the ageing query: one per aged invoice, each with a positive
   * balance, by due date with the undated ones last.
   */
  function AgingRows(db: NodeDatabase, user: int, today: int): (rows: seq<AgingRow>)
    reads db
    ensures |rows| == |AgedInvoices(db, user)|
    ensures forall i :: 0 <= i < |rows| ==> AgedInvoices(db, user)[i].total.Some?
    ensures forall i :: 0 <= i < |rows| ==> rows[i] == AgingRowOf(db, AgedInvoices(db, user)[i], today)
    ensures forall i :: 0 <= i < |rows| ==> rows[i].balance > 0.0
    ensures forall i, j :: 0 <= i < j < |rows| ==>
              rows[j].dueDate.None? || (rows[i].dueDate.Some? && rows[i].dueDate.value <= rows[j].dueDate.value)
  {
    var invs := AgedInvoices(db, user);
    AgedOwe(invs, user);
    AgingRowsOf(db, invs, today)
  }

  lemma AgedOwe(invs: seq<NInvoice>, user: int)
    requires forall x :: x in invs ==> Aged(x, user)
    ensures forall i :: 0 <= i < |invs| ==> invs[i].total.Some? && invs[i].total.value - invs[i].paidAmount > 0.0
  {
    forall i | 0 <= i < |invs| ensures invs[i].total.Some? && invs[i].total.value - invs[i].paidAmount > 0.0 {
      assert Aged(invs[i], user);
    }
  }

  function BracketOf(r: AgingRow): string { r.bracket }
  function BalanceOf(r: AgingRow): real { r.balance }

  /** `{ bracket, invoices, total_balance }` of the reply. */
  datatype BracketGroup = BracketGroup(bracket: string, invoices: seq<AgingRow>, totalBalance: real)

  /** The group of bracket `b`: its rows in order and the sum of their balances. */
  function GroupOf(rows: seq<AgingRow>, b: string): BracketGroup
  {
    BracketGroup(b, Grouping.WithKey(rows, BracketOf, b), Grouping.SumKey(rows, BracketOf, b, BalanceOf))
  }

  /** Where bracket `b` sits among the groups built so far. */
  function Position(groups: seq<BracketGroup>, b: string): (r: Option<nat>)
    ensures r.None? <==> forall i :: 0 <= i < |groups| ==> groups[i].bracket != b
    ensures r.Some? ==> r.value < |groups| && groups[r.value].bracket == b
  {
    if groups == [] then None
    else if groups[|groups| - 1].bracket == b then Some(|groups| - 1)
    else Position(groups[..|groups| - 1], b)
  }

  /**
   * The `reduce` that groups the ageing rows: one group per bracket in the
   * order the brackets first occur, each holding its rows and their summed
   * balance.
   */
  method GroupByBracket(rows: seq<AgingRow>) returns (groups: seq<BracketGroup>)
    ensures |groups| == |Grouping.Keys(rows, BracketOf)|
    ensures forall i :: 0 <= i < |groups| ==> groups[i] == GroupOf(rows, Grouping.Keys(rows, BracketOf)[i])
  {
    groups := [];
    for k := 0 to |rows|
      invariant GroupsOf(rows[..k], groups)
    {
      assert rows[..k] + [rows[k]] == rows[..k + 1];
      groups := AddRow(rows[..k], groups, rows[k]);
    }
    assert rows[..|rows|] == rows;
  }

  /** `groups` are the groups of `seen`, one per bracket in first-occurrence order. */
  predicate GroupsOf(seen: seq<AgingRow>, groups: seq<BracketGroup>)
  {
    |groups| == |Grouping.Keys(seen, BracketOf)|
    && forall i :: 0 <= i < |groups| ==> groups[i] == GroupOf(seen, Grouping.Keys(seen, BracketOf)[i])
  }

  /** One step of the `reduce`: `row` joins its bracket's group, which is created when missing. */
  method AddRow(seen: seq<AgingRow>, groups: seq<BracketGroup>, row: AgingRow) returns (next: seq<BracketGroup>)
    requires GroupsOf(seen, groups)
    ensures GroupsOf(seen + [row], next)
  {
    var j := Position(groups, row.bracket);
    if j.None? {
      next := groups + [Joined(BracketGroup(row.bracket, [], 0.0), row)];
      NewGroupGrows(seen, groups, row);
    } else {
      next := groups[j.value := Joined(groups[j.value], row)];
      ExistingGroupGrows(seen, groups, row, j.value);
    }
  }

  /** `row` pushed onto `g`'s invoices and its balance added to `g`'s total. */
  function Joined(g: BracketGroup, row: AgingRow): BracketGroup
  {
    g.(invoices := g.invoices + [row], totalBalance := g.totalBalance + row.balance)
  }

  /** A new row changes its own bracket's group only, by joining it. */
  lemma GroupSnoc(seen: seq<AgingRow>, row: AgingRow, b: string)
    ensures GroupOf(seen + [row], b) == if row.bracket == b then Joined(GroupOf(seen, b), row) else GroupOf(seen, b)
  {
    Grouping.WithKeySnoc(seen, row, BracketOf, b);
    Grouping.SumKeySnoc(seen, row, BracketOf, b, BalanceOf);
  }

  /** A row of a bracket already grouped joins that group. */
  lemma ExistingGroupGrows(seen: seq<AgingRow>, groups: seq<BracketGroup>, row: AgingRow, j: nat)
    requires GroupsOf(seen, groups) && j < |groups| && groups[j].bracket == row.bracket
    ensures GroupsOf(seen + [row], groups[j := Joined(groups[j], row)])
  {
    var ks := Grouping.Keys(seen, BracketOf);
    Grouping.KeysSnoc(seen, row, BracketOf);
    assert ks[j] == row.bracket;
    assert Grouping.Keys(seen + [row], BracketOf) == ks;
    var next := groups[j := Joined(groups[j], row)];
    forall i | 0 <= i < |next|
      ensures next[i] == GroupOf(seen + [row], ks[i])
    {
      GroupSnoc(seen, row, ks[i]);
    }
  }

  /** A row of a bracket not yet grouped starts a group of its own at the end. */
  lemma NewGroupGrows(seen: seq<AgingRow>, groups: seq<BracketGroup>, row: AgingRow)
    requires GroupsOf(seen, groups)
    requires forall i :: 0 <= i < |groups| ==> groups[i].bracket != row.bracket
    ensures GroupsOf(seen + [row], groups + [Joined(BracketGroup(row.bracket, [], 0.0), row)])
  {
    var ks := Grouping.Keys(seen, BracketOf);
    Grouping.KeysSnoc(seen, row, BracketOf);
    assert row.bracket !in ks by {
      forall i | 0 <= i < |ks| ensures ks[i] != row.bracket {
        assert groups[i].bracket == ks[i];
      }
    }
    var ks' := ks + [row.bracket];
    assert Grouping.Keys(seen + [row], BracketOf) == ks';
    Grouping.AbsentKey(seen, BracketOf, row.bracket, BalanceOf);
    var next := groups + [Joined(BracketGroup(row.bracket, [], 0.0), row)];
    forall i | 0 <= i < |next|
      ensures next[i] == GroupOf(seen + [row], ks'[i])
    {
      GroupSnoc(seen, row, ks'[i]);
      if i < |groups| {
        assert ks'[i] == ks[i] && next[i] == groups[i];
      } else {
        assert ks'[i] == row.bracket && GroupOf(seen, row.bracket) == BracketGroup(row.bracket, [], 0.0);
      }
    }
  }

  /** The ageing reply: the groups, and every row as the query returned it. */
  datatype AgingReport = AgingReport(brackets: seq<BracketGroup>, allInvoices: seq<AgingRow>)

  /** `GET /api/reports/invoice-aging`. */
  method InvoiceAging(db: NodeDatabase, user: int, today: int, fault: bool) returns (r: Outcome<AgingReport>)
    ensures fault <==> r.Fail?
    ensures r.Fail? ==> r == Fail(500, DbError)
    ensures r.Ok? ==> r.value.allInvoices == AgingRows(db, user, today)
    ensures r.Ok? ==>
              (|r.value.brackets| == |Grouping.Keys(r.value.allInvoices, BracketOf)|
               && forall i :: 0 <= i < |r.value.brackets| ==>
                    r.value.brackets[i] == GroupOf(r.value.allInvoices, Grouping.Keys(r.value.allInvoices, BracketOf)[i]))
  {
    if fault {
      return Fail(500, DbError);
    }
    var rows := AgingRows(db, user, today);
    var groups := GroupByBracket(rows);
    r := Ok(AgingReport(groups, rows));
  }

  function GroupSizes(groups: seq<BracketGroup>): nat
  {
    if groups == [] then 0 else |groups[0].invoices| + GroupSizes(groups[1..])
  }

  function GroupBalances(groups: seq<BracketGroup>): real
  {
    if groups == [] then 0.0 else groups[0].totalBalance + GroupBalances(groups[1..])
  }

  lemma {:induction false} GroupSums(rows: seq<AgingRow>, ks: seq<string>, groups: seq<BracketGroup>)
    requires |groups| == |ks| && forall i :: 0 <= i < |ks| ==> groups[i] == GroupOf(rows, ks[i])
    ensures GroupSizes(groups) == Grouping.CountsOver(rows, BracketOf, ks)
    ensures GroupBalances(groups) == Grouping.SumsOver(rows, BracketOf, ks, BalanceOf)
  {
    if ks != [] {
      GroupSums(rows, ks[1..], groups[1..]);
    }
  }

  /**
   * The brackets partition the rows: every row sits in exactly one group, so
   * the group sizes add up to the number of rows and the bracket balances to
   * the total balance.
   */
  lemma AgingPartition(rows: seq<AgingRow>, groups: seq<BracketGroup>)
    requires |groups| == |Grouping.Keys(rows, BracketOf)|
    requires forall i :: 0 <= i < |groups| ==> groups[i] == GroupOf(rows, Grouping.Keys(rows, BracketOf)[i])
    ensures GroupSizes(groups) == |rows|
    ensures GroupBalances(groups) == Grouping.Total(rows, BalanceOf)
  {
    var ks := Grouping.Keys(rows, BracketOf);
    GroupSums(rows, ks, groups);
    Grouping.CountsPartition(rows, BracketOf, ks);
    Grouping.SumsPartition(rows, BracketOf, ks, BalanceOf);
  }

  // ---------------------------------------------------------------------------
  // Client summary.

  /** One row of the client summary. */
  datatype ClientSummary = ClientSummary(
    id: int, name: Option<string>, email: Option<string>, totalInvoices: nat, totalBilled: real,
    totalPaid: real, outstandingBalance: real, lastInvoiceDate: Option<int>, overdueCount: nat)

  /** `COALESCE(x, 0)`. */
  function OrZero(x: Option<real>): real
  {
    if x.Some? then x.value else 0.0
  }

  /** `MAX(issue_date)`, NULL over no rows. */
  function LatestIssue(invs: seq<NInvoice>): (r: Option<int>)
    ensures r.None? <==> invs == []
    ensures r.Some? ==> (exists x :: x in invs && x.issueDate == r.value) && forall x :: x in invs ==> x.issueDate <= r.value
  {
    if invs == [] then None
    else
      var rest := LatestIssue(invs[1..]);
      assert forall x :: x in invs ==> x == invs[0] || x in invs[1..];
      if rest.None? || invs[0].issueDate >= rest.value then Some(invs[0].issueDate) else rest
  }

  function StatusKey(inv: NInvoice): Option<string> { inv.status }

  /** The invoices the `LEFT JOIN` matches to a client, whoever owns them. */
  function InvoicesOf(db: NodeDatabase, clientId: int): (invs: seq<NInvoice>)
    reads db
    ensures forall id :: id in db.invoices && db.invoices[id].clientId == Some(clientId) ==> db.invoices[id] in invs
    ensures forall x :: x in invs ==> x in db.invoices.Values && x.clientId == Some(clientId)
  {
    Tables.Select(db.invoices, (inv: NInvoice) => inv.clientId == Some(clientId))
  }

  function SummaryOf(db: NodeDatabase, c: NClient): (s: ClientSummary)
    reads db
  {
    var invs := InvoicesOf(db, c.id);
    ClientSummary(c.id, c.name, c.email, |invs|, OrZero(SqlSum(invs, Total)), Grouping.Total(invs, Paid),
                  OrZero(SqlSum(invs, Balance)), LatestIssue(invs), Grouping.CountKey(invs, StatusKey, Some("overdue")))
  }

  function Billed(inv: NInvoice): real { if inv.total.Some? then inv.total.value else 0.0 }
  function Owed(inv: NInvoice): real { Billed(inv) - inv.paidAmount }

  /**
   * When every invoice of a client has a total, its summary's outstanding
   * balance is what was billed less what was paid.
   */
  lemma OutstandingIsBilledLessPaid(invs: seq<NInvoice>)
    requires forall x :: x in invs ==> x.total.Some?
    ensures OrZero(SqlSum(invs, Balance)) == OrZero(SqlSum(invs, Total)) - Grouping.Total(invs, Paid)
  {
    if invs == [] {
    } else {
      SqlSumTotal(invs, Total, Billed);
      SqlSumTotal(invs, Balance, Owed);
      TotalDifference(invs, Billed, Paid, Owed);
    }
  }

  lemma {:induction false} TotalDifference<T>(s: seq<T>, a: T -> real, b: T -> real, d: T -> real)
    requires forall x :: x in s ==> d(x) == a(x) - b(x)
    ensures Grouping.Total(s, d) == Grouping.Total(s, a) - Grouping.Total(s, b)
  {
    if s != [] {
      assert s[0] in s;
      assert forall x :: x in s[1..] ==> x in s;
      TotalDifference(s[1..], a, b, d);
    }
  }

  function SummariesOf(db: NodeDatabase, cs: seq<NClient>): (r: seq<ClientSummary>)
    reads db
    ensures |r| == |cs| && forall i :: 0 <= i < |cs| ==> r[i] == SummaryOf(db, cs[i])
  {
    seq(|cs|, i reads db requires 0 <= i < |cs| => SummaryOf(db, cs[i]))
  }

  function ClientsOf(db: NodeDatabase, user: int): (cs: seq<NClient>)
    reads db
    ensures forall id :: id in db.clients && db.clients[id].userId == Some(user) ==> db.clients[id] in cs
    ensures forall c :: c in cs ==> c in db.clients.Values && c.userId == Some(user)
  {
    Tables.Select(db.clients, (c: NClient) => c.userId == Some(user))
  }

  /** `ORDER BY total_billed DESC`. */
  predicate BilledMostFirst(a: ClientSummary, b: ClientSummary) { a.totalBilled >= b.totalBilled }

  /**
   * A summary row counts the invoices the join matches to its client, and a
   * client without any has billed nothing and has no last invoice date.
   */
  predicate CountsItsInvoices(db: NodeDatabase, x: ClientSummary)
    reads db
  {
    x.totalInvoices == |InvoicesOf(db, x.id)|
    && (x.totalInvoices == 0 ==> x.totalBilled == 0.0 && x.lastInvoiceDate.None?)
  }

  lemma SummariesCount(db: NodeDatabase, cs: seq<NClient>)
    ensures forall x :: x in SummariesOf(db, cs) ==> CountsItsInvoices(db, x)
  {
    var r := SummariesOf(db, cs);
    forall x | x in r
      ensures CountsItsInvoices(db, x)
    {
      var i :| 0 <= i < |r| && r[i] == x;
      assert x == SummaryOf(db, cs[i]);
    }
  }

  /**
   * `GET /api/reports/client-summary`: one row per client of the user, with
   * or without invoices, most billed first; the counts and sums cover the
   * invoices the join matches to the client.
   */
  function ClientSummaries(db: NodeDatabase, user: int, fault: bool): (r: Outcome<seq<ClientSummary>>)
    reads db
    ensures fault <==> r.Fail?
    ensures r.Fail? ==> r == Fail(500, DbError)
    ensures r.Ok? ==> |r.value| == |ClientsOf(db, user)|
    ensures r.Ok? ==> multiset(r.value) == multiset(SummariesOf(db, ClientsOf(db, user)))
    ensures r.Ok? ==> forall i, j :: 0 <= i < j < |r.value| ==> r.value[i].totalBilled >= r.value[j].totalBilled
    ensures r.Ok? ==> forall i :: 0 <= i < |r.value| ==> CountsItsInvoices(db, r.value[i])
  {
    if fault then Fail(500, DbError)
    else
      var sorted := MostBilledFirst(SummariesOf(db, ClientsOf(db, user)));
      SortedSummariesCount(db, ClientsOf(db, user));
      Ok(sorted)
  }

  /** Sorting the summaries keeps each one counting its own client's invoices. */
  lemma SortedSummariesCount(db: NodeDatabase, cs: seq<NClient>)
    ensures forall i :: 0 <= i < |MostBilledFirst(SummariesOf(db, cs))| ==>
              CountsItsInvoices(db, MostBilledFirst(SummariesOf(db, cs))[i])
  {
    var all := SummariesOf(db, cs);
    var sorted := MostBilledFirst(all);
    SummariesCount(db, cs);
    assert forall i :: 0 <= i < |sorted| ==> sorted[i] in all;
  }

  function MostBilledFirst(rows: seq<ClientSummary>): (r: seq<ClientSummary>)
    ensures |r| == |rows| && multiset(r) == multiset(rows)
    ensures forall x :: x in r ==> x in rows
    ensures forall i, j :: 0 <= i < j < |r| ==> r[i].totalBilled >= r[j].totalBilled
  {
    assert Tables.TotalPreorder(rows, BilledMostFirst);
    Tables.OrderBy(rows, BilledMostFirst)
  }

  // ---------------------------------------------------------------------------
  // Dashboard.

  /** One row of `GROUP BY status`: NULL statuses form a group of their own. */
  datatype StatusRow = StatusRow(status: Option<string>, count: nat, totalAmount: Option<real>)

  function StatusRows(invs: seq<NInvoice>, ks: seq<Option<string>>): (r: seq<StatusRow>)
    ensures |r| == |ks|
    ensures forall i :: 0 <= i < |ks| ==>
              r[i] == StatusRow(ks[i], Grouping.CountKey(invs, StatusKey, ks[i]), SqlSum(Grouping.WithKey(invs, StatusKey, ks[i]), Total))
  {
    if ks == [] then []
    else [StatusRow(ks[0], Grouping.CountKey(invs, StatusKey, ks[0]), SqlSum(Grouping.WithKey(invs, StatusKey, ks[0]), Total))]
         + StatusRows(invs, ks[1..])
  }

  function UserInvoices(db: NodeDatabase, user: int): (invs: seq<NInvoice>)
    reads db
    ensures forall id :: id in db.invoices && db.invoices[id].userId == Some(user) ==> db.invoices[id] in invs
    ensures forall x :: x in invs ==> x in db.invoices.Values && x.userId == Some(user)
  {
    Tables.Select(db.invoices, (inv: NInvoice) => inv.userId == Some(user))
  }

  /** The `GROUP BY status` query: its counts cover every invoice of the user, each group non-empty. */
  function StatusStats(db: NodeDatabase, user: int): (r: seq<StatusRow>)
    reads db
    ensures StatusCounts(r) == |UserInvoices(db, user)|
    ensures forall i :: 0 <= i < |r| ==> r[i].count > 0
    ensures forall i, j :: 0 <= i < j < |r| ==> r[i].status != r[j].status
  {
    var invs := UserInvoices(db, user);
    var ks := Grouping.Keys(invs, StatusKey);
    var r := StatusRows(invs, ks);
    StatusGroups(invs, ks, r);
    r
  }

  lemma StatusGroups(invs: seq<NInvoice>, ks: seq<Option<string>>, r: seq<StatusRow>)
    requires ks == Grouping.Keys(invs, StatusKey) && r == StatusRows(invs, ks)
    ensures StatusCounts(r) == |invs|
    ensures forall i :: 0 <= i < |r| ==> r[i].count > 0
    ensures forall i, j :: 0 <= i < j < |r| ==> r[i].status != r[j].status
  {
    StatusCountsOver(invs, ks);
    Grouping.CountsPartition(invs, StatusKey, ks);
    Grouping.KeysCounted(invs, StatusKey);
    forall i | 0 <= i < |r| ensures r[i].count > 0 {
      assert ks[i] in ks;
    }
  }

  function StatusCounts(r: seq<StatusRow>): nat
  {
    if r == [] then 0 else r[0].count + StatusCounts(r[1..])
  }

  lemma {:induction false} StatusCountsOver(invs: seq<NInvoice>, ks: seq<Option<string>>)
    ensures StatusCounts(StatusRows(invs, ks)) == Grouping.CountsOver(invs, StatusKey, ks)
  {
    if ks != [] {
      StatusCountsOver(invs, ks[1..]);
      assert StatusRows(invs, ks)[1..] == StatusRows(invs, ks[1..]);
    }
  }

  /** `COUNT(DISTINCT id)` and `COUNT(DISTINCT CASE WHEN status = 'active' THEN id END)` over the user's clients. */
  datatype ClientStats = ClientStats(totalClients: nat, activeClients: nat)

  function ClientStatsOf(db: NodeDatabase, user: int): (s: ClientStats)
    reads db
    ensures s.activeClients <= s.totalClients
  {
    var all := set id | id in db.clients && db.clients[id].userId == Some(user);
    var active := set id | id in all && db.clients[id].status == Some("active");
    assert active <= all;
    assert all == active + (all - active);
    ClientStats(|all|, |active|)
  }

  /** The invoices the dashboard calls overdue: sent or overdue, past due, with something left to pay. */
  predicate Overdue(inv: NInvoice, user: int, today: int)
  {
    inv.userId == Some(user)
    && inv.status.Some? && inv.status.value in {"overdue", "sent"}
    && inv.dueDate.Some? && inv.dueDate.value < today
    && Balance(inv).Some? && Balance(inv).value > 0.0
  }

  datatype OverdueStats = OverdueStats(overdueCount: nat, overdueAmount: Option<real>)

  function OverdueInvoices(db: NodeDatabase, user: int, today: int): (invs: seq<NInvoice>)
    reads db
    ensures forall id :: id in db.invoices && Overdue(db.invoices[id], user, today) ==> db.invoices[id] in invs
    ensures forall x :: x in invs ==> x in db.invoices.Values && Overdue(x, user, today)
  {
    Tables.Select(db.invoices, (inv: NInvoice) => Overdue(inv, user, today))
  }

  /** The overdue figure: how many such invoices and `SUM(total - paid_amount)` over them. */
  function OverdueStatsOf(db: NodeDatabase, user: int, today: int): (s: OverdueStats)
    reads db
    ensures s.overdueCount == 0 <==> forall id :: id in db.invoices ==> !Overdue(db.invoices[id], user, today)
    ensures s.overdueCount == 0 ==> s.overdueAmount.None?
    ensures s.overdueCount > 0 ==> s.overdueAmount.Some? && s.overdueAmount.value > 0.0
  {
    var invs := OverdueInvoices(db, user, today);
    SqlSumPositive(invs, Balance);
    assert invs != [] ==> invs[0] in invs;
    OverdueStats(|invs|, SqlSum(invs, Balance))
  }

  /** Every invoice the dashboard counts as overdue is listed by the ageing report, in a bracket past 'current'. */
  lemma OverdueIsAged(inv: NInvoice, user: int, today: int)
    requires Overdue(inv, user, today)
    ensures Aged(inv, user) && AgeBracket(inv.dueDate, today) != "current"
  {
  }

  /** `DATE_TRUNC('month', CURRENT_DATE - INTERVAL '1 month')`: the first day of last month. */
  function LastMonthStart(today: int): int
  {
    Calendar.MonthStart(Calendar.MonthStart(today) - 1)
  }

  /** One row of the dashboard's revenue query: `month`, `revenue`, `collected`. */
  datatype MonthRow = MonthRow(month: int, revenue: Option<real>, collected: real)

  /** The dashboard's columns of a period row: no invoice count. */
  function MonthOf(r: RevenueRow): MonthRow
  {
    MonthRow(r.period, r.revenue, r.collected)
  }

  function MonthRows(r: seq<RevenueRow>): (m: seq<MonthRow>)
    ensures |m| == |r| && forall i :: 0 <= i < |r| ==> m[i] == MonthOf(r[i])
  {
    seq(|r|, i requires 0 <= i < |r| => MonthOf(r[i]))
  }

  /**
   * The dashboard's revenue query: per month holding one of the user's
   * non-cancelled invoices issued from the first day of last month on, that
   * month's revenue and collected amount.
   */
  function RecentMonths(db: NodeDatabase, user: int, today: int): (m: seq<MonthRow>)
    reads db
    ensures forall i, j :: 0 <= i < j < |m| ==> m[i].month < m[j].month
    ensures forall i :: 0 <= i < |m| ==>
              m[i] == MonthOf(Bucket(CountedRows(db, user, LastMonthStart(today)), PeriodKey("month"), m[i].month))
  {
    var rows := PeriodRows(db, user, "month", LastMonthStart(today));
    MonthRowsOfBuckets(rows, CountedRows(db, user, LastMonthStart(today)), PeriodKey("month"));
    MonthRows(rows)
  }

  lemma MonthRowsOfBuckets(rows: seq<RevenueRow>, invs: seq<NInvoice>, key: NInvoice -> int)
    requires forall i, j :: 0 <= i < j < |rows| ==> rows[i].period < rows[j].period
    requires forall i :: 0 <= i < |rows| ==> rows[i] == Bucket(invs, key, rows[i].period)
    ensures forall i, j :: 0 <= i < j < |MonthRows(rows)| ==> MonthRows(rows)[i].month < MonthRows(rows)[j].month
    ensures forall i :: 0 <= i < |MonthRows(rows)| ==> MonthRows(rows)[i] == MonthOf(Bucket(invs, key, MonthRows(rows)[i].month))
  {
    var m := MonthRows(rows);
    assert forall i :: 0 <= i < |m| ==> m[i].month == rows[i].period;
  }

  datatype DashboardStats = DashboardStats(
    invoiceStats: seq<StatusRow>, revenueStats: seq<MonthRow>, clientStats: ClientStats, overdueStats: OverdueStats)

  /**
   * `GET /api/reports/dashboard-stats`: the four queries together; a failure
   * of any answers 500.
   */
  function Dashboard(db: NodeDatabase, user: int, today: int, fault: bool): (r: Outcome<DashboardStats>)
    reads db
    ensures fault <==> r.Fail?
    ensures r.Fail? ==> r == Fail(500, DbError)
    ensures r.Ok? ==> r.value.invoiceStats == StatusStats(db, user)
    ensures r.Ok? ==> r.value.revenueStats == RecentMonths(db, user, today)
    ensures r.Ok? ==> r.value.clientStats == ClientStatsOf(db, user) && r.value.overdueStats == OverdueStatsOf(db, user, today)
  {
    if fault then Fail(500, DbError)
    else
      Ok(DashboardStats(StatusStats(db, user), RecentMonths(db, user, today),
                        ClientStatsOf(db, user), OverdueStatsOf(db, user, today)))
  }

  // ---------------------------------------------------------------------------
  // Export.

  datatype ExportKind = InvoicesExport | ClientsExport | ProductsExport

  /** The `type` query parameter, 'invoices' when absent; anything else is refused. */
  function ExportKindOf(t: Option<string>): (k: Option<ExportKind>)
    ensures k == Some(InvoicesExport) <==> t.None? || t == Some("invoices")
    ensures k == Some(ClientsExport) <==> t == Some("clients")
    ensures k == Some(ProductsExport) <==> t == Some("products")
  {
    if t.None? || t == Some("invoices") then Some(InvoicesExport)
    else if t == Some("clients") then Some(ClientsExport)
    else if t == Some("products") then Some(ProductsExport)
    else None
  }

  function Filename(k: ExportKind): string
  {
    match k
    case InvoicesExport => "invoices_export.csv"
    case ClientsExport => "clients_export.csv"
    case ProductsExport => "products_export.csv"
  }

  /** The columns each export selects, in order. */
  function Columns(k: ExportKind): seq<string>
  {
    match k
    case InvoicesExport =>
      ["invoice_number", "client_name", "issue_date", "due_date", "status", "subtotal", "tax_amount",
       "discount", "total", "paid_amount", "balance"]
    case ClientsExport => ["name", "email", "phone", "address", "payment_terms", "status"]
    case ProductsExport => ["name", "unit_price", "description", "category"]
  }

  /** How the driver renders a numeric and a date column as text. */
  datatype Shows = Shows(number: real -> string, date: int -> string, integer: int -> string)

  function Cell<T>(v: Option<T>, show: T -> string): CsvHelper.Value
  {
    if v.Some? then CsvHelper.Shown(show(v.value)) else CsvHelper.Null
  }

  function Text(v: Option<string>): CsvHelper.Value
  {
    Cell(v, (s: string) => s)
  }

  function InvoiceRecord(db: NodeDatabase, inv: NInvoice, sh: Shows): (row: CsvHelper.Row)
    reads db
    ensures CsvHelper.Keys(row) == Columns(InvoicesExport)
  {
    [("invoice_number", Text(inv.invoiceNumber)),
     ("client_name", Text(NodeInvoices.ClientColumn(NodeInvoices.JoinedClient(db, inv.clientId), (c: NClient) => c.name))),
     ("issue_date", CsvHelper.Shown(sh.date(inv.issueDate))),
     ("due_date", Cell(inv.dueDate, sh.date)),
     ("status", Text(inv.status)),
     ("subtotal", Cell(inv.charges.subtotal, sh.number)),
     ("tax_amount", Cell(inv.charges.taxAmount, sh.number)),
     ("discount", Cell(inv.charges.discount, sh.number)),
     ("total", Cell(inv.total, sh.number)),
     ("paid_amount", CsvHelper.Shown(sh.number(inv.paidAmount))),
     ("balance", Cell(Balance(inv), sh.number))]
  }

  function ClientRecord(c: NClient, sh: Shows): (row: CsvHelper.Row)
    ensures CsvHelper.Keys(row) == Columns(ClientsExport)
  {
    [("name", Text(c.name)), ("email", Text(c.email)), ("phone", Text(c.phone)), ("address", Text(c.address)),
     ("payment_terms", Cell(c.paymentTerms, sh.integer)), ("status", Text(c.status))]
  }

  function ProductRecord(p: NProduct, sh: Shows): (row: CsvHelper.Row)
    ensures CsvHelper.Keys(row) == Columns(ProductsExport)
  {
    [("name", Text(p.name)), ("unit_price", Cell(p.unitPrice, sh.number)),
     ("description", Text(p.description)), ("category", Text(p.category))]
  }

  function InvoiceRecords(db: NodeDatabase, invs: seq<NInvoice>, sh: Shows): (rows: seq<CsvHelper.Row>)
    reads db
    ensures |rows| == |invs| && forall i :: 0 <= i < |invs| ==> rows[i] == InvoiceRecord(db, invs[i], sh)
    ensures forall i :: 0 <= i < |rows| ==> CsvHelper.Keys(rows[i]) == Columns(InvoicesExport)
  {
    if invs == [] then [] else [InvoiceRecord(db, invs[0], sh)] + InvoiceRecords(db, invs[1..], sh)
  }

  function ClientRecords(cs: seq<NClient>, sh: Shows): (rows: seq<CsvHelper.Row>)
    ensures |rows| == |cs| && forall i :: 0 <= i < |cs| ==> rows[i] == ClientRecord(cs[i], sh)
    ensures forall i :: 0 <= i < |rows| ==> CsvHelper.Keys(rows[i]) == Columns(ClientsExport)
  {
    if cs == [] then [] else [ClientRecord(cs[0], sh)] + ClientRecords(cs[1..], sh)
  }

  function ProductRecords(ps: seq<NProduct>, sh: Shows): (rows: seq<CsvHelper.Row>)
    ensures |rows| == |ps| && forall i :: 0 <= i < |ps| ==> rows[i] == ProductRecord(ps[i], sh)
    ensures forall i :: 0 <= i < |rows| ==> CsvHelper.Keys(rows[i]) == Columns(ProductsExport)
  {
    if ps == [] then [] else [ProductRecord(ps[0], sh)] + ProductRecords(ps[1..], sh)
  }

  /** `ORDER BY i.issue_date DESC`. */
  predicate IssuedLaterFirst(a: NInvoice, b: NInvoice) { a.issueDate >= b.issueDate }

  /** The invoices export: the user's invoices, latest issue date first. */
  function ExportedInvoices(db: NodeDatabase, user: int): (invs: seq<NInvoice>)
    reads db
    ensures multiset(invs) == multiset(UserInvoices(db, user)) && |invs| == |UserInvoices(db, user)|
    ensures forall i, j :: 0 <= i < j < |invs| ==> invs[i].issueDate >= invs[j].issueDate
  {
    var all := UserInvoices(db, user);
    assert Tables.TotalPreorder(all, IssuedLaterFirst);
    Tables.OrderBy(all, IssuedLaterFirst)
  }

  /** The clients export: the user's clients by name, unnamed ones last. */
  function ExportedClients(db: NodeDatabase, user: int): (cs: seq<NClient>)
    reads db
    ensures multiset(cs) == multiset(ClientsOf(db, user))
    ensures forall i, j :: 0 <= i < j < |cs| ==> Tables.TextAscending(cs[i].name, cs[j].name)
  {
    var all := ClientsOf(db, user);
    Tables.TextAscendingPreorder(all, (c: NClient) => c.name, NodeInvoices.ClientNameFirst);
    Tables.OrderBy(all, NodeInvoices.ClientNameFirst)
  }

  /** The products export: the user's products by name, unnamed ones last. */
  function ExportedProducts(db: NodeDatabase, user: int): (ps: seq<NProduct>)
    reads db
    ensures forall id :: id in db.products && db.products[id].userId == Some(user) ==> db.products[id] in ps
    ensures forall x :: x in ps ==> x in db.products.Values && x.userId == Some(user)
    ensures forall i, j :: 0 <= i < j < |ps| ==> Tables.TextAscending(ps[i].name, ps[j].name)
  {
    var all := Tables.Select(db.products, (p: NProduct) => p.userId == Some(user));
    Tables.TextAscendingPreorder(all, (p: NProduct) => p.name, NodeInvoices.ProductNameFirst);
    Tables.OrderBy(all, NodeInvoices.ProductNameFirst)
  }

  /**
   * The rows an export selects, each keyed by the export's columns: one per
   * invoice, client or product of the user, in the query's order.
   */
  function ExportRows(db: NodeDatabase, user: int, k: ExportKind, sh: Shows): (rows: seq<CsvHelper.Row>)
    reads db
    ensures forall i :: 0 <= i < |rows| ==> CsvHelper.Keys(rows[i]) == Columns(k)
    ensures k == InvoicesExport ==>
              (|rows| == |ExportedInvoices(db, user)| == |UserInvoices(db, user)|
               && forall i :: 0 <= i < |rows| ==> rows[i] == InvoiceRecord(db, ExportedInvoices(db, user)[i], sh))
    ensures k == ClientsExport ==>
              (|rows| == |ExportedClients(db, user)|
               && forall i :: 0 <= i < |rows| ==> rows[i] == ClientRecord(ExportedClients(db, user)[i], sh))
    ensures k == ProductsExport ==>
              (|rows| == |ExportedProducts(db, user)|
               && forall i :: 0 <= i < |rows| ==> rows[i] == ProductRecord(ExportedProducts(db, user)[i], sh))
  {
    match k
    case InvoicesExport => InvoiceRecords(db, ExportedInvoices(db, user), sh)
    case ClientsExport => ClientRecords(ExportedClients(db, user), sh)
    case ProductsExport => ProductRecords(ExportedProducts(db, user), sh)
  }

  datatype ExportBody = JsonRows(rows: seq<CsvHelper.Row>) | CsvFile(filename: string, text: string)

  /**
   * `GET /api/reports/export`: 400 for an unknown type before any query; the
   * rows as JSON when `format` is 'json', otherwise `jsonToCSV` of them as an
   * attachment named after the type.
   */
  function Export(db: NodeDatabase, user: int, typeParam: Option<string>, format: Option<string>, sh: Shows, fault: bool)
    : (r: Outcome<ExportBody>)
    reads db
    ensures ExportKindOf(typeParam).None? ==> r == Fail(400, InvalidExportType)
    ensures ExportKindOf(typeParam).Some? && fault ==> r == Fail(500, DbError)
    ensures r.Ok? <==> ExportKindOf(typeParam).Some? && !fault
    ensures r.Ok? ==> (r.value.JsonRows? <==> format == Some("json"))
    ensures r.Ok? && r.value.JsonRows? ==> r.value.rows == ExportRows(db, user, ExportKindOf(typeParam).value, sh)
    ensures r.Ok? && r.value.CsvFile? ==>
              r.value.filename == Filename(ExportKindOf(typeParam).value)
              && r.value.text == CsvHelper.JsonToCsv(ExportRows(db, user, ExportKindOf(typeParam).value, sh))
  {
    var k := ExportKindOf(typeParam);
    if k.None? then Fail(400, InvalidExportType)
    else if fault then Fail(500, DbError)
    else
      var rows := ExportRows(db, user, k.value, sh);
      if format == Some("json") then Ok(JsonRows(rows))
      else Ok(CsvFile(Filename(k.value), CsvHelper.JsonToCsv(rows)))
  }

  /**
   * A CSV export reads back as the export's column names followed by each
   * selected row's cell texts in column order; with no rows it is empty.
   */
  lemma CsvExportReadsBack(db: NodeDatabase, user: int, k: ExportKind, sh: Shows)
    ensures ExportRows(db, user, k, sh) == [] ==> CsvHelper.JsonToCsv(ExportRows(db, user, k, sh)) == ""
    ensures ExportRows(db, user, k, sh) != [] ==>
              CsvHelper.ParseDocument(CsvHelper.JsonToCsv(ExportRows(db, user, k, sh)))
              == [Columns(k)] + CsvHelper.AllCells(ExportRows(db, user, k, sh), Columns(k))
  {
    var rows := ExportRows(db, user, k, sh);
    if rows != [] {
      assert CsvHelper.Keys(rows[0]) == Columns(k);
      assert |rows[0]| >= 1;
      CsvHelper.JsonToCsvRoundTrip(rows);
    }
  }
}
