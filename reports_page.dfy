/**
 * src/pages/Reports.tsx: the reports page. It shows the figures of
 * `GET /reports/dashboard-stats` (the invoice count and the revenue over the
 * status groups, the overdue amount, the client counts), charts
 * `GET /reports/revenue` per period, colours the status chart and downloads
 * the CSV exports. The figures are those of the Node server's report routes.
 */
module ReportsPage {
  import opened Wrappers
  import Text
  import Calendar
  import Grouping
  import opened MockApi
  import InvoiceEditor
  import NodeDb
  import NodeReports
  import Dashboard
  import opened JsNumber

  // ---------------------------------------------------------------------------
  // Reading numbers.

  /** `reduce((sum, v) => sum + v, 0)`: NaN as soon as one term is. */
  function Reduce(xs: seq<Num>): (r: Num)
    ensures r.NaN? <==> exists i :: 0 <= i < |xs| && xs[i].NaN?
  {
    if xs == [] then Finite(0.0)
    else
      var rest := Reduce(xs[1..]);
      assert forall i :: 1 <= i < |xs| ==> xs[i] == xs[1..][i - 1];
      Plus(xs[0], rest)
  }

  /** Over finite terms the reduction is their plain sum. */
  lemma {:induction false} ReduceFinite(xs: seq<Num>, vs: seq<real>)
    requires |xs| == |vs| && forall i :: 0 <= i < |xs| ==> xs[i] == Finite(vs[i])
    ensures Reduce(xs) == Finite(Dashboard.Sum(vs))
  {
    if xs != [] {
      ReduceFinite(xs[1..], vs[1..]);
      SumFirst(vs);
    }
  }

  lemma {:induction false} SumFirst(vs: seq<real>)
    requires vs != []
    ensures Dashboard.Sum(vs) == vs[0] + Dashboard.Sum(vs[1..])
  {
    if |vs| > 1 {
      var n := |vs| - 1;
      assert vs[..n][1..] == vs[1..][..n - 1];
      assert vs[1..][n - 1] == vs[n];
      SumFirst(vs[..n]);
    }
  }

  // ---------------------------------------------------------------------------
  // The status groups.

  /** A slice of the status chart: `{ name: status, value: parseInt(count), amount: parseFloat(total_amount) }`. */
  datatype Slice = Slice(name: Option<string>, value: Num, amount: Num)

  /** `item.status`: a text, or null or missing (`Some(None)`); `None` where the model does not render it. */
  function NameOf(x: Option<Json>): Option<Option<string>>
  {
    if x.None? || x.value.JNull? then Some(None)
    else if x.value.JStr? then Some(Some(x.value.s))
    else None
  }

  /** One status group as charted; `None` where reading it throws. */
  function SliceOf(item: Json): (r: Option<Slice>)
    ensures r.Some? ==> item.JObj? && "count" in item.fields && item.fields["count"] != JNull
  {
    if !item.JObj? then None
    else
      var name := NameOf(InvoiceEditor.Member(item.fields, "status"));
      var count := ParseIntOf(InvoiceEditor.Member(item.fields, "count"));
      var amount := ParseFloatOf(InvoiceEditor.Member(item.fields, "total_amount"));
      if name.None? || count.None? || amount.None? then None
      else Some(Slice(name.value, count.value, amount.value))
  }

  /** `invoice_stats.map(...)`: `None` when one item throws. */
  function SlicesOf(items: seq<Json>): (r: Option<seq<Slice>>)
    ensures r.None? <==> exists i :: 0 <= i < |items| && SliceOf(items[i]).None?
    ensures r.Some? ==> |r.value| == |items| && forall i :: 0 <= i < |items| ==> SliceOf(items[i]) == Some(r.value[i])
  {
    if forall i :: 0 <= i < |items| ==> SliceOf(items[i]).Some? then
      Some(seq(|items|, i requires 0 <= i < |items| => SliceOf(items[i]).value))
    else None
  }

  function Values(slices: seq<Slice>): seq<Num>
  {
    seq(|slices|, i requires 0 <= i < |slices| => slices[i].value)
  }

  function Amounts(slices: seq<Slice>): seq<Num>
  {
    seq(|slices|, i requires 0 <= i < |slices| => slices[i].amount)
  }

  // ---------------------------------------------------------------------------
  // The figures.

  /** `overdue_stats.overdue_amount || '0'` read as a number; `None` where `overdue_stats` is null or missing. */
  function OverdueOf(stats: Option<Json>): (r: Option<Num>)
    ensures stats.None? || stats == Some(JNull) ==> r.None?
    ensures stats.Some? && stats.value.JObj? ==> r == ParseFloatOrZero(InvoiceEditor.Member(stats.value.fields, "overdue_amount"))
  {
    if stats.None? || stats.value.JNull? then None
    else if !stats.value.JObj? then Some(Finite(0.0))
    else ParseFloatOrZero(InvoiceEditor.Member(stats.value.fields, "overdue_amount"))
  }

  /** `overdue_stats.overdue_count || 0`. */
  function OverdueCountOf(stats: Json): Json
  {
    var x := if stats.JObj? then InvoiceEditor.Member(stats.fields, "overdue_count") else None;
    if x.None? || !Truthy(x.value) then JNum(0.0) else x.value
  }

  /** What the page shows: the chart slices and the four cards. */
  datatype View = View(slices: seq<Slice>, invoiceCount: Num, totalRevenue: Num, overdueAmount: Num,
                       activeClients: Option<Json>, totalClients: Option<Json>, overdueCount: Json)

  /** `Loading...`, the rendered page, or a render that throws (or holds a value the model does not render). */
  datatype Screen = Loading | Failed | Shown(view: View)

  /** The page drawn from a stats object whose `invoice_stats` is an array. */
  function ShownOf(o: map<string, Json>, items: seq<Json>): (r: Screen)
    ensures r != Loading
    ensures r.Shown? <==> SlicesOf(items).Some? && OverdueOf(InvoiceEditor.Member(o, "overdue_stats")).Some?
                          && InvoiceEditor.Member(o, "client_stats").Some? && InvoiceEditor.Member(o, "client_stats").value != JNull
    ensures r.Shown? ==> Some(r.view.slices) == SlicesOf(items)
    ensures r.Shown? ==> r.view.invoiceCount == Reduce(Values(r.view.slices)) && r.view.totalRevenue == Reduce(Amounts(r.view.slices))
    ensures r.Shown? ==> Some(r.view.overdueAmount) == OverdueOf(InvoiceEditor.Member(o, "overdue_stats"))
  {
    var slices := SlicesOf(items);
    var overdue := OverdueOf(InvoiceEditor.Member(o, "overdue_stats"));
    var clients := InvoiceEditor.Member(o, "client_stats");
    if slices.None? || overdue.None? || clients.None? || clients.value.JNull? then Failed
    else
      var cs := clients.value;
      var overdueStats := o["overdue_stats"];
      Shown(View(slices.value, Reduce(Values(slices.value)), Reduce(Amounts(slices.value)), overdue.value,
                 if cs.JObj? then InvoiceEditor.Member(cs.fields, "active_clients") else None,
                 if cs.JObj? then InvoiceEditor.Member(cs.fields, "total_clients") else None,
                 OverdueCountOf(overdueStats)))
  }

  /**
   * The render as written: `Loading...` while `stats` is falsy; otherwise
   * `stats.invoice_stats.map(...)` runs, which throws unless `stats` is an
   * object whose `invoice_stats` is an array.
   */
  function RenderedAsWritten(stats: Json): (r: Screen)
    ensures r == Loading <==> !Truthy(stats)
    ensures Truthy(stats) && !(stats.JObj? && "invoice_stats" in stats.fields && stats.fields["invoice_stats"].JArr?) ==> r == Failed
  {
    if !Truthy(stats) then Loading
    else if !stats.JObj? then Failed
    else
      var items := InvoiceEditor.Member(stats.fields, "invoice_stats");
      if items.None? || !items.value.JArr? then Failed
      else ShownOf(stats.fields, items.value.elems)
  }

  /**
   * `api.get` answers a list, never a stats object, when it serves the mock
   * data: in demo mode (nothing is ever stored under 'reports') and when the
   * server cannot be reached. The page then throws instead of drawing.
   */
  lemma MockStatsCrash(items: seq<Json>, path: string)
    ensures RenderedAsWritten(JArr(items)) == Failed
    ensures RenderedAsWritten(DemoGet([], path)) == Failed
  {
    if IdOf(path).Some? {
      assert DemoGet([], path) == NotFound;
    }
  }

  /** The intended render: a missing stats object keeps `Loading...` up; a real one draws as before. */
  function Rendered(stats: Json): (r: Screen)
    ensures r != Loading ==> r == RenderedAsWritten(stats)
    ensures r == Failed ==> RenderedAsWritten(stats) == Failed
    ensures !(stats.JObj? && "invoice_stats" in stats.fields && stats.fields["invoice_stats"].JArr?) ==> r == Loading
  {
    if !stats.JObj? then Loading
    else
      var items := InvoiceEditor.Member(stats.fields, "invoice_stats");
      if items.None? || !items.value.JArr? then Loading
      else ShownOf(stats.fields, items.value.elems)
  }

  /** With the intended guard the mock answers leave the page waiting rather than broken. */
  lemma MockStatsWait(items: seq<Json>, path: string)
    ensures Rendered(JArr(items)) == Loading
    ensures Rendered(DemoGet([], path)) == Loading
  {
    if IdOf(path).Some? {
      assert DemoGet([], path) == NotFound;
    }
  }

  // ---------------------------------------------------------------------------
  // The server's answer.

  /** A `GROUP BY status` row as the driver sends it: the count as text, the sum as decimal text or null. */
  function RowJson(r: NodeReports.StatusRow): Json
  {
    JObj(map["status" := TextJson(r.status), "count" := JStr(Text.IntToString(r.count)), "total_amount" := DecimalJson(r.totalAmount)])
  }

  function RowsJson(rows: seq<NodeReports.StatusRow>): (j: seq<Json>)
    ensures |j| == |rows| && forall i :: 0 <= i < |rows| ==> j[i] == RowJson(rows[i])
  {
    seq(|rows|, i requires 0 <= i < |rows| => RowJson(rows[i]))
  }

  function OverdueJson(s: NodeReports.OverdueStats): Json
  {
    JObj(map["overdue_count" := JStr(Text.IntToString(s.overdueCount)), "overdue_amount" := DecimalJson(s.overdueAmount)])
  }

  function ClientsJson(c: NodeReports.ClientStats): Json
  {
    JObj(map["total_clients" := JStr(Text.IntToString(c.totalClients)), "active_clients" := JStr(Text.IntToString(c.activeClients))])
  }

  /** The `dashboard-stats` body, as far as the page reads it. */
  function StatsJson(d: NodeReports.DashboardStats): Json
  {
    JObj(map["invoice_stats" := JArr(RowsJson(d.invoiceStats)), "client_stats" := ClientsJson(d.clientStats),
             "overdue_stats" := OverdueJson(d.overdueStats)])
  }

  /** A status group as the page reads it from the server: its count, and NaN for a NULL sum. */
  function Decoded(r: NodeReports.StatusRow): (s: Slice)
    ensures s.value == Finite(r.count as real)
    ensures s.amount.NaN? <==> r.totalAmount.None?
  {
    Slice(r.status, Finite(r.count as real),
          if r.totalAmount.Some? then Finite(r.totalAmount.value) else NaN)
  }

  function DecodedRows(rows: seq<NodeReports.StatusRow>): seq<Slice>
  {
    seq(|rows|, i requires 0 <= i < |rows| => Decoded(rows[i]))
  }

  lemma SliceOfRow(r: NodeReports.StatusRow)
    requires Cents(r.totalAmount)
    ensures SliceOf(RowJson(r)) == Some(Decoded(r))
  {
    RowMembers(r);
    Text.ParseIntOfString(r.count);
    SliceOfMembers(RowJson(r), r.status, Text.IntToString(r.count), r.totalAmount);
  }

  lemma RowMembers(r: NodeReports.StatusRow)
    ensures RowJson(r).JObj?
    ensures InvoiceEditor.Member(RowJson(r).fields, "status") == Some(TextJson(r.status))
    ensures InvoiceEditor.Member(RowJson(r).fields, "count") == Some(JStr(Text.IntToString(r.count)))
    ensures InvoiceEditor.Member(RowJson(r).fields, "total_amount") == Some(DecimalJson(r.totalAmount))
  {
  }

  /**
   * An object with a textual or null status, a textual count and an amount
   * in decimal text or null reads as a slice.
   */
  lemma SliceOfMembers(item: Json, status: Option<string>, count: string, amount: Option<real>)
    requires item.JObj? && Cents(amount)
    requires InvoiceEditor.Member(item.fields, "status") == Some(TextJson(status))
    requires InvoiceEditor.Member(item.fields, "count") == Some(JStr(count))
    requires InvoiceEditor.Member(item.fields, "total_amount") == Some(DecimalJson(amount))
    ensures SliceOf(item) == Some(Slice(status, IntNum(count), if amount.Some? then Finite(amount.value) else NaN))
  {
    DecimalReadsBack(amount);
  }

  /** A NULL overdue sum reads 0. */
  lemma OverdueRead(s: NodeReports.OverdueStats)
    requires Cents(s.overdueAmount)
    ensures OverdueOf(Some(OverdueJson(s))) == Some(Finite(NodeReports.OrZero(s.overdueAmount)))
  {
    var o := OverdueJson(s).fields;
    assert InvoiceEditor.Member(o, "overdue_amount") == Some(DecimalJson(s.overdueAmount));
    DecimalOrZero(s.overdueAmount);
  }

  /** A stats object whose members read without throwing is drawn. */
  lemma ShownFromMembers(o: map<string, Json>, items: seq<Json>)
    requires InvoiceEditor.Member(o, "invoice_stats") == Some(JArr(items))
    requires SlicesOf(items).Some? && OverdueOf(InvoiceEditor.Member(o, "overdue_stats")).Some?
    requires InvoiceEditor.Member(o, "client_stats").Some? && InvoiceEditor.Member(o, "client_stats").value != JNull
    ensures RenderedAsWritten(JObj(o)) == ShownOf(o, items) && ShownOf(o, items).Shown?
  {
  }

  /** The sums of the answer are in whole cents, as the two-place columns they add up are. */
  predicate StatsInCents(d: NodeReports.DashboardStats)
  {
    (forall i :: 0 <= i < |d.invoiceStats| ==> Cents(d.invoiceStats[i].totalAmount))
    && Cents(d.overdueStats.overdueAmount)
  }

  /** The server's answer is drawn: its groups as the slices, a NULL overdue sum as 0. */
  lemma ServerStatsShown(d: NodeReports.DashboardStats)
    requires StatsInCents(d)
    ensures RenderedAsWritten(StatsJson(d)).Shown?
    ensures RenderedAsWritten(StatsJson(d)).view.slices == DecodedRows(d.invoiceStats)
    ensures RenderedAsWritten(StatsJson(d)).view.invoiceCount == Reduce(Values(DecodedRows(d.invoiceStats)))
    ensures RenderedAsWritten(StatsJson(d)).view.totalRevenue == Reduce(Amounts(DecodedRows(d.invoiceStats)))
    ensures RenderedAsWritten(StatsJson(d)).view.overdueAmount == Finite(NodeReports.OrZero(d.overdueStats.overdueAmount))
  {
    var rows := d.invoiceStats;
    var items := RowsJson(rows);
    forall i | 0 <= i < |rows| ensures SliceOf(items[i]) == Some(Decoded(rows[i])) {
      SliceOfRow(rows[i]);
    }
    assert SlicesOf(items).value == DecodedRows(rows);
    OverdueRead(d.overdueStats);
    var o := StatsJson(d).fields;
    assert InvoiceEditor.Member(o, "invoice_stats") == Some(JArr(items));
    assert InvoiceEditor.Member(o, "overdue_stats") == Some(OverdueJson(d.overdueStats));
    assert InvoiceEditor.Member(o, "client_stats") == Some(ClientsJson(d.clientStats));
    ShownFromMembers(o, items);
  }

  /** The 'Total Invoices' card adds up the group counts: the number of the user's invoices. */
  lemma InvoiceCountMatches(db: NodeDb.NodeDatabase, user: int, today: int)
    requires InCents(db)
    ensures RenderedAsWritten(StatsJson(NodeReports.Dashboard(db, user, today, false).value)).Shown?
    ensures RenderedAsWritten(StatsJson(NodeReports.Dashboard(db, user, today, false).value)).view.invoiceCount
              == Finite(|NodeReports.UserInvoices(db, user)| as real)
  {
    DashboardInCents(db, user, today);
    InvoiceCountOf(NodeReports.Dashboard(db, user, today, false).value, db, user);
  }

  lemma InvoiceCountOf(d: NodeReports.DashboardStats, db: NodeDb.NodeDatabase, user: int)
    requires d.invoiceStats == NodeReports.StatusStats(db, user) && StatsInCents(d)
    ensures RenderedAsWritten(StatsJson(d)).Shown?
    ensures RenderedAsWritten(StatsJson(d)).view.invoiceCount == Finite(|NodeReports.UserInvoices(db, user)| as real)
  {
    ServerStatsShown(d);
    CountsAdd(d.invoiceStats);
  }

  lemma {:induction false} CountsAdd(rows: seq<NodeReports.StatusRow>)
    ensures Reduce(Values(DecodedRows(rows))) == Finite(NodeReports.StatusCounts(rows) as real)
  {
    if rows != [] {
      CountsAdd(rows[1..]);
      assert Values(DecodedRows(rows))[1..] == Values(DecodedRows(rows[1..]));
    }
  }

  /** A total as summed by `SUM(total)` when none is NULL. */
  function TotalOrZero(inv: NodeDb.NInvoice): real
  {
    NodeReports.OrZero(inv.total)
  }

  /**
   * The 'Total Revenue' card sums the groups of every status, drafts and
   * cancelled invoices included: when no total is NULL it is the sum of the
   * totals of all the user's invoices.
   */
  lemma RevenueCoversEveryStatus(db: NodeDb.NodeDatabase, user: int, today: int)
    requires InCents(db)
    requires forall x :: x in NodeReports.UserInvoices(db, user) ==> x.total.Some?
    ensures RenderedAsWritten(StatsJson(NodeReports.Dashboard(db, user, today, false).value)).Shown?
    ensures RenderedAsWritten(StatsJson(NodeReports.Dashboard(db, user, today, false).value)).view.totalRevenue
              == Finite(Grouping.Total(NodeReports.UserInvoices(db, user), TotalOrZero))
  {
    DashboardInCents(db, user, today);
    TotalRevenueOf(NodeReports.Dashboard(db, user, today, false).value, db, user);
  }

  lemma TotalRevenueOf(d: NodeReports.DashboardStats, db: NodeDb.NodeDatabase, user: int)
    requires d.invoiceStats == NodeReports.StatusStats(db, user) && StatsInCents(d)
    requires forall x :: x in NodeReports.UserInvoices(db, user) ==> x.total.Some?
    ensures RenderedAsWritten(StatsJson(d)).Shown?
    ensures RenderedAsWritten(StatsJson(d)).view.totalRevenue == Finite(Grouping.Total(NodeReports.UserInvoices(db, user), TotalOrZero))
  {
    var invs := NodeReports.UserInvoices(db, user);
    var ks := Grouping.Keys(invs, NodeReports.StatusKey);
    ServerStatsShown(d);
    Grouping.KeysCounted(invs, NodeReports.StatusKey);
    GroupSums(invs, ks);
    Grouping.SumsPartition(invs, NodeReports.StatusKey, ks, TotalOrZero);
  }

  lemma {:induction false} GroupSums(invs: seq<NodeDb.NInvoice>, ks: seq<Option<string>>)
    requires forall x :: x in invs ==> x.total.Some?
    requires forall k :: k in ks ==> Grouping.CountKey(invs, NodeReports.StatusKey, k) > 0
    ensures Reduce(Amounts(DecodedRows(NodeReports.StatusRows(invs, ks))))
              == Finite(Grouping.SumsOver(invs, NodeReports.StatusKey, ks, TotalOrZero))
  {
    if ks != [] {
      var amounts := Amounts(DecodedRows(NodeReports.StatusRows(invs, ks)));
      var rest := Amounts(DecodedRows(NodeReports.StatusRows(invs, ks[1..])));
      AmountsSplit(invs, ks, amounts, rest);
      assert forall j :: j in ks[1..] ==> j in ks;
      GroupSums(invs, ks[1..]);
      ReduceFirst(amounts, rest, Grouping.SumKey(invs, NodeReports.StatusKey, ks[0], TotalOrZero),
                  Grouping.SumsOver(invs, NodeReports.StatusKey, ks[1..], TotalOrZero));
    }
  }

  lemma ReduceFirst(xs: seq<Num>, rest: seq<Num>, first: real, others: real)
    requires |xs| > 0 && xs[1..] == rest
    requires xs[0] == Finite(first) && Reduce(rest) == Finite(others)
    ensures Reduce(xs) == Finite(first + others)
  {
  }

  /** The first group's amount is its sum; the others are the amounts of the remaining groups. */
  lemma AmountsSplit(invs: seq<NodeDb.NInvoice>, ks: seq<Option<string>>, amounts: seq<Num>, rest: seq<Num>)
    requires forall x :: x in invs ==> x.total.Some?
    requires ks != [] && Grouping.CountKey(invs, NodeReports.StatusKey, ks[0]) > 0
    requires amounts == Amounts(DecodedRows(NodeReports.StatusRows(invs, ks)))
    requires rest == Amounts(DecodedRows(NodeReports.StatusRows(invs, ks[1..])))
    ensures |amounts| > 0 && amounts[1..] == rest
    ensures amounts[0] == Finite(Grouping.SumKey(invs, NodeReports.StatusKey, ks[0], TotalOrZero))
  {
    var rows := NodeReports.StatusRows(invs, ks);
    assert rows[1..] == NodeReports.StatusRows(invs, ks[1..]);
    AmountsTail(rows);
    GroupSum(invs, ks[0]);
    assert rows[0].totalAmount == NodeReports.SqlSum(Grouping.WithKey(invs, NodeReports.StatusKey, ks[0]), NodeReports.Total);
    assert amounts[0] == Decoded(rows[0]).amount;
  }

  lemma AmountsTail(rows: seq<NodeReports.StatusRow>)
    requires rows != []
    ensures Amounts(DecodedRows(rows))[1..] == Amounts(DecodedRows(rows[1..]))
  {
    var a, b := Amounts(DecodedRows(rows)), Amounts(DecodedRows(rows[1..]));
    assert |a[1..]| == |b|;
    forall i | 0 <= i < |b| ensures a[1..][i] == b[i] {
      assert rows[1..][i] == rows[i + 1];
    }
  }

  lemma GroupSum(invs: seq<NodeDb.NInvoice>, k: Option<string>)
    requires forall x :: x in invs ==> x.total.Some?
    requires Grouping.CountKey(invs, NodeReports.StatusKey, k) > 0
    ensures NodeReports.SqlSum(Grouping.WithKey(invs, NodeReports.StatusKey, k), NodeReports.Total)
              == Some(Grouping.SumKey(invs, NodeReports.StatusKey, k, TotalOrZero))
  {
    var group := Grouping.WithKey(invs, NodeReports.StatusKey, k);
    WithKeyWithin(invs, NodeReports.StatusKey, k);
    NodeReports.SqlSumTotal(group, NodeReports.Total, TotalOrZero);
    Grouping.SumKeyIsTotal(invs, NodeReports.StatusKey, k, TotalOrZero);
  }

  /** A group holds only rows of the table it groups. */
  lemma {:induction false} WithKeyWithin<K>(invs: seq<NodeDb.NInvoice>, key: NodeDb.NInvoice -> K, k: K)
    ensures forall x :: x in Grouping.WithKey(invs, key, k) ==> x in invs
  {
    if invs != [] {
      WithKeyWithin(invs[1..], key, k);
    }
  }

  // ---------------------------------------------------------------------------
  // Whole cents.

  /** Every invoice's total and paid amount are whole cents, as two-place NUMERIC columns hold. */
  predicate InCents(db: NodeDb.NodeDatabase)
    reads db
  {
    forall x :: x in db.invoices.Values ==> Cents(x.total) && Text.WholeCents(x.paidAmount)
  }

  /** A `SUM` of values in whole cents is in whole cents, or NULL. */
  lemma {:induction false} SqlSumCents<T>(rows: seq<T>, f: T -> Option<real>)
    requires forall i :: 0 <= i < |rows| ==> Cents(f(rows[i]))
    ensures Cents(NodeReports.SqlSum(rows, f))
  {
    if rows != [] {
      assert forall i :: 0 <= i < |rows| - 1 ==> rows[1..][i] == rows[i + 1];
      SqlSumCents(rows[1..], f);
      var rest := NodeReports.SqlSum(rows[1..], f);
      if f(rows[0]).Some? && rest.Some? {
        Text.WholeCentsAdded(f(rows[0]).value, rest.value);
      }
    }
  }

  /** A balance `total - paid_amount` of whole cents is in whole cents. */
  lemma BalanceCents(inv: NodeDb.NInvoice)
    requires Cents(inv.total) && Text.WholeCents(inv.paidAmount)
    ensures Cents(NodeReports.Balance(inv))
  {
    if inv.total.Some? {
      Text.WholeCentsNegated(inv.paidAmount);
      Text.WholeCentsAdded(inv.total.value, -inv.paidAmount);
    }
  }

  /** With every invoice in whole cents, so are the sums of the dashboard's answer. */
  lemma DashboardInCents(db: NodeDb.NodeDatabase, user: int, today: int)
    requires InCents(db)
    ensures StatsInCents(NodeReports.Dashboard(db, user, today, false).value)
  {
    var invs := NodeReports.UserInvoices(db, user);
    StatusRowsInCents(invs, Grouping.Keys(invs, NodeReports.StatusKey));
    OverdueInCents(db, user, today);
  }

  lemma StatusRowsInCents(invs: seq<NodeDb.NInvoice>, ks: seq<Option<string>>)
    requires forall x :: x in invs ==> Cents(x.total)
    ensures forall i :: 0 <= i < |ks| ==> Cents(NodeReports.StatusRows(invs, ks)[i].totalAmount)
  {
    forall i | 0 <= i < |ks| ensures Cents(NodeReports.StatusRows(invs, ks)[i].totalAmount) {
      var group := Grouping.WithKey(invs, NodeReports.StatusKey, ks[i]);
      WithKeyWithin(invs, NodeReports.StatusKey, ks[i]);
      assert forall j :: 0 <= j < |group| ==> group[j] in group;
      SqlSumCents(group, NodeReports.Total);
    }
  }

  lemma OverdueInCents(db: NodeDb.NodeDatabase, user: int, today: int)
    requires InCents(db)
    ensures Cents(NodeReports.OverdueStatsOf(db, user, today).overdueAmount)
  {
    var overdue := NodeReports.OverdueInvoices(db, user, today);
    forall j | 0 <= j < |overdue| ensures Cents(NodeReports.Balance(overdue[j])) {
      assert overdue[j] in overdue;
      BalanceCents(overdue[j]);
    }
    SqlSumCents(overdue, NodeReports.Balance);
  }

  /** How the 'Overdue Amount' figure is coloured: `overdueAmount > 0`. */
  datatype Tone = Alarm | Calm

  function ToneOf(n: Num): (t: Tone)
    ensures t == Alarm <==> n.Finite? && n.v > 0.0
  {
    if n.Finite? && n.v > 0.0 then Alarm else Calm
  }

  /** The overdue figure turns red exactly when the user has an invoice the server counts as overdue. */
  lemma OverdueAlarm(db: NodeDb.NodeDatabase, user: int, today: int)
    requires InCents(db)
    ensures RenderedAsWritten(StatsJson(NodeReports.Dashboard(db, user, today, false).value)).Shown?
    ensures (ToneOf(RenderedAsWritten(StatsJson(NodeReports.Dashboard(db, user, today, false).value)).view.overdueAmount) == Alarm)
            <==> exists id :: id in db.invoices && NodeReports.Overdue(db.invoices[id], user, today)
  {
    DashboardInCents(db, user, today);
    OverdueToneOf(NodeReports.Dashboard(db, user, today, false).value, db, user, today);
  }

  lemma OverdueToneOf(d: NodeReports.DashboardStats, db: NodeDb.NodeDatabase, user: int, today: int)
    requires d.overdueStats == NodeReports.OverdueStatsOf(db, user, today) && StatsInCents(d)
    ensures RenderedAsWritten(StatsJson(d)).Shown?
    ensures (ToneOf(RenderedAsWritten(StatsJson(d)).view.overdueAmount) == Alarm)
            <==> exists id :: id in db.invoices && NodeReports.Overdue(db.invoices[id], user, today)
  {
    ServerStatsShown(d);
  }

  // ---------------------------------------------------------------------------
  // The revenue chart.

  /** An x-axis label: `format(date, 'MMM yyyy')` names a month; a day label names the day itself. */
  datatype Label = MonthLabel(year: int, month: int) | DayLabel(days: int)

  function MonthOf(days: int): (l: Label)
    ensures l.MonthLabel?
  {
    var c := Calendar.CivilFromDays(days);
    MonthLabel(c.year, c.month)
  }

  /** A chart point: `{ period, revenue: parseFloat(revenue || 0), collected: parseFloat(collected || 0) }`. */
  datatype Point = Point(tick: Label, revenue: Num, collected: Num)

  /**
   * One point; `None` where `new Date(period)` is invalid (`date` answers
   * `None` and `format` throws) or a value is not rendered.
   */
  function PointOf(item: Json, date: Option<Json> -> Option<int>, tick: int -> Label): (r: Option<Point>)
    ensures r.Some? ==> item.JObj? && date(InvoiceEditor.Member(item.fields, "period")).Some?
    ensures r.Some? ==> r.value.tick == tick(date(InvoiceEditor.Member(item.fields, "period")).value)
  {
    if !item.JObj? then None
    else
      var day := date(InvoiceEditor.Member(item.fields, "period"));
      var revenue := ParseFloatOrZero(InvoiceEditor.Member(item.fields, "revenue"));
      var collected := ParseFloatOrZero(InvoiceEditor.Member(item.fields, "collected"));
      if day.None? || revenue.None? || collected.None? then None
      else Some(Point(tick(day.value), revenue.value, collected.value))
  }

  function PointsOf(items: seq<Json>, date: Option<Json> -> Option<int>, tick: int -> Label): (r: Option<seq<Point>>)
    ensures r.None? <==> exists i :: 0 <= i < |items| && PointOf(items[i], date, tick).None?
    ensures r.Some? ==> |r.value| == |items| && forall i :: 0 <= i < |items| ==> PointOf(items[i], date, tick) == Some(r.value[i])
  {
    if forall i :: 0 <= i < |items| ==> PointOf(items[i], date, tick).Some? then
      Some(seq(|items|, i requires 0 <= i < |items| => PointOf(items[i], date, tick).value))
    else None
  }

  /**
   * `fetchRevenueData` as written: every point labelled by its month; when
   * the answer is not an array or a point throws, the chart keeps what it
   * showed.
   */
  function ChartAsWritten(data: Json, date: Option<Json> -> Option<int>, previous: seq<Point>): (r: seq<Point>)
    ensures !data.JArr? ==> r == previous
    ensures data.JArr? && PointsOf(data.elems, date, MonthOf).Some? ==> r == PointsOf(data.elems, date, MonthOf).value
  {
    if !data.JArr? then previous
    else
      var points := PointsOf(data.elems, date, MonthOf);
      if points.None? then previous else points.value
  }

  /** A revenue row as the driver sends it: the period as a date-time text, the sums as decimal text or null. */
  function RevenueRowJson(r: NodeReports.RevenueRow): Json
  {
    JObj(map["period" := JStr(Calendar.IsoDate(r.period)), "revenue" := DecimalJson(r.revenue),
             "invoice_count" := JStr(Text.IntToString(r.invoiceCount)), "collected" := DecimalJson(Some(r.collected))])
  }

  function RevenueJson(rows: seq<NodeReports.RevenueRow>): Json
  {
    JArr(seq(|rows|, i requires 0 <= i < |rows| => RevenueRowJson(rows[i])))
  }

  /** `date` reads back the day of each period the server sent. */
  predicate ReadsPeriods(rows: seq<NodeReports.RevenueRow>, date: Option<Json> -> Option<int>)
  {
    forall i :: 0 <= i < |rows| ==> date(Some(JStr(Calendar.IsoDate(rows[i].period)))) == Some(rows[i].period)
  }

  /** The sums of a revenue row are in whole cents, as the two-place columns they add up are. */
  predicate RowInCents(r: NodeReports.RevenueRow)
  {
    Cents(r.revenue) && Text.WholeCents(r.collected)
  }

  lemma PointOfRow(r: NodeReports.RevenueRow, date: Option<Json> -> Option<int>, tick: int -> Label)
    requires date(Some(JStr(Calendar.IsoDate(r.period)))) == Some(r.period) && RowInCents(r)
    ensures PointOf(RevenueRowJson(r), date, tick)
              == Some(Point(tick(r.period), Finite(NodeReports.OrZero(r.revenue)), Finite(r.collected)))
  {
    RowReadings(r);
    PointOfReadings(RevenueRowJson(r), date, tick, r.period, NodeReports.OrZero(r.revenue), r.collected);
  }

  /** A row's sums, sent as decimal text, read back through `parseFloat(x || 0)`, a NULL revenue as 0. */
  lemma RowReadings(r: NodeReports.RevenueRow)
    requires RowInCents(r)
    ensures RevenueRowJson(r).JObj?
    ensures InvoiceEditor.Member(RevenueRowJson(r).fields, "period") == Some(JStr(Calendar.IsoDate(r.period)))
    ensures ParseFloatOrZero(InvoiceEditor.Member(RevenueRowJson(r).fields, "revenue")) == Some(Finite(NodeReports.OrZero(r.revenue)))
    ensures ParseFloatOrZero(InvoiceEditor.Member(RevenueRowJson(r).fields, "collected")) == Some(Finite(r.collected))
  {
    RevenueRowMembers(r);
    var o := RevenueRowJson(r).fields;
    DecimalMemberOrZero(o, "revenue", r.revenue);
    DecimalMemberOrZero(o, "collected", Some(r.collected));
  }

  /** The members of a revenue row as the server sends it. */
  lemma RevenueRowMembers(r: NodeReports.RevenueRow)
    ensures RevenueRowJson(r).JObj?
    ensures InvoiceEditor.Member(RevenueRowJson(r).fields, "period") == Some(JStr(Calendar.IsoDate(r.period)))
    ensures InvoiceEditor.Member(RevenueRowJson(r).fields, "revenue") == Some(DecimalJson(r.revenue))
    ensures InvoiceEditor.Member(RevenueRowJson(r).fields, "collected") == Some(DecimalJson(Some(r.collected)))
  {
  }

  /** A member sent as decimal text reads back through `parseFloat(x || 0)`: its value, or 0 for null. */
  lemma DecimalMemberOrZero(o: map<string, Json>, key: string, x: Option<real>)
    requires Cents(x) && InvoiceEditor.Member(o, key) == Some(DecimalJson(x))
    ensures ParseFloatOrZero(InvoiceEditor.Member(o, key)) == Some(Finite(if x.Some? then x.value else 0.0))
  {
    DecimalOrZero(x);
  }

  /** An object whose period and sums read back is charted as the point of those readings. */
  lemma PointOfReadings(item: Json, date: Option<Json> -> Option<int>, tick: int -> Label, day: int, revenue: real, collected: real)
    requires item.JObj? && date(InvoiceEditor.Member(item.fields, "period")) == Some(day)
    requires ParseFloatOrZero(InvoiceEditor.Member(item.fields, "revenue")) == Some(Finite(revenue))
    requires ParseFloatOrZero(InvoiceEditor.Member(item.fields, "collected")) == Some(Finite(collected))
    ensures PointOf(item, date, tick) == Some(Point(tick(day), Finite(revenue), Finite(collected)))
  {
  }

  /** Whatever its sums, a row whose period reads back is charted under that period's tick. */
  lemma PointTick(r: NodeReports.RevenueRow, date: Option<Json> -> Option<int>, tick: int -> Label)
    requires date(Some(JStr(Calendar.IsoDate(r.period)))) == Some(r.period)
    ensures PointOf(RevenueRowJson(r), date, tick).Some?
    ensures PointOf(RevenueRowJson(r), date, tick).value.tick == tick(r.period)
  {
    RevenueRowMembers(r);
  }

  /** The server's rows are charted one point each, in its order, a NULL revenue read as 0. */
  lemma ServerRowsCharted(rows: seq<NodeReports.RevenueRow>, date: Option<Json> -> Option<int>, tick: int -> Label)
    requires ReadsPeriods(rows, date)
    requires forall i :: 0 <= i < |rows| ==> RowInCents(rows[i])
    ensures PointsOf(RevenueJson(rows).elems, date, tick).Some?
    ensures |PointsOf(RevenueJson(rows).elems, date, tick).value| == |rows|
    ensures forall i :: 0 <= i < |rows| ==>
              PointsOf(RevenueJson(rows).elems, date, tick).value[i]
                == Point(tick(rows[i].period), Finite(NodeReports.OrZero(rows[i].revenue)), Finite(rows[i].collected))
  {
    var items := RevenueJson(rows).elems;
    forall i | 0 <= i < |rows|
      ensures PointOf(items[i], date, tick)
                == Some(Point(tick(rows[i].period), Finite(NodeReports.OrZero(rows[i].revenue)), Finite(rows[i].collected)))
    {
      PointOfRow(rows[i], date, tick);
    }
  }

  /** With every invoice in whole cents, so are the sums of every revenue row the server answers. */
  lemma RevenueInCents(db: NodeDb.NodeDatabase, user: int, period: Option<string>, today: int)
    requires InCents(db)
    ensures forall i :: 0 <= i < |NodeReports.Revenue(db, user, period, today, false).value| ==>
              RowInCents(NodeReports.Revenue(db, user, period, today, false).value[i])
  {
    var rows := NodeReports.Revenue(db, user, period, today, false).value;
    var w := NodeReports.PeriodWindow(period);
    var invs := NodeReports.CountedRows(db, user, NodeReports.WindowStart(today, w.interval));
    forall i | 0 <= i < |rows| ensures RowInCents(rows[i]) {
      BucketInCents(invs, NodeReports.PeriodKey(w.unit), rows[i].period);
    }
  }

  lemma BucketInCents(invs: seq<NodeDb.NInvoice>, key: NodeDb.NInvoice -> int, p: int)
    requires forall x :: x in invs ==> Cents(x.total) && Text.WholeCents(x.paidAmount)
    ensures RowInCents(NodeReports.Bucket(invs, key, p))
  {
    var group := Grouping.WithKey(invs, key, p);
    WithKeyWithin(invs, key, p);
    assert forall j :: 0 <= j < |group| ==> group[j] in group;
    SqlSumCents(group, NodeReports.Total);
    SumKeyCents(invs, key, p);
  }

  /** `SUM(paid_amount)` over amounts in whole cents is in whole cents. */
  lemma {:induction false} SumKeyCents(invs: seq<NodeDb.NInvoice>, key: NodeDb.NInvoice -> int, p: int)
    requires forall x :: x in invs ==> Text.WholeCents(x.paidAmount)
    ensures Text.WholeCents(Grouping.SumKey(invs, key, p, NodeReports.Paid))
  {
    if invs == [] {
      assert (0.0 * 100.0).Floor == 0;
    } else {
      assert forall x :: x in invs[1..] ==> x in invs;
      SumKeyCents(invs[1..], key, p);
      assert invs[0] in invs;
      var first := if key(invs[0]) == p then invs[0].paidAmount else 0.0;
      assert (0.0 * 100.0).Floor == 0;
      Text.WholeCentsAdded(first, Grouping.SumKey(invs[1..], key, p, NodeReports.Paid));
    }
  }

  /** The server's rows are charted one point each, in its order, each under its period's tick. */
  lemma ServerRowsTicked(rows: seq<NodeReports.RevenueRow>, date: Option<Json> -> Option<int>, tick: int -> Label)
    requires ReadsPeriods(rows, date)
    ensures PointsOf(RevenueJson(rows).elems, date, tick).Some?
    ensures |PointsOf(RevenueJson(rows).elems, date, tick).value| == |rows|
    ensures forall i :: 0 <= i < |rows| ==> PointsOf(RevenueJson(rows).elems, date, tick).value[i].tick == tick(rows[i].period)
  {
    var items := RevenueJson(rows).elems;
    forall i | 0 <= i < |rows|
      ensures PointOf(items[i], date, tick).Some? && PointOf(items[i], date, tick).value.tick == tick(rows[i].period)
    {
      PointTick(rows[i], date, tick);
    }
  }

  /**
   * The 30-day chart groups by day, yet labels each point with its month:
   * the first two days of January 1970 come out under the same label.
   */
  lemma DailyPointsShareLabel(rows: seq<NodeReports.RevenueRow>, date: Option<Json> -> Option<int>)
    requires |rows| == 2 && rows[0].period == 0 && rows[1].period == 1 && ReadsPeriods(rows, date)
    ensures |ChartAsWritten(RevenueJson(rows), date, [])| == 2
    ensures ChartAsWritten(RevenueJson(rows), date, [])[0].tick == ChartAsWritten(RevenueJson(rows), date, [])[1].tick
  {
    ServerRowsTicked(rows, date, MonthOf);
    FirstDaysOf1970();
  }

  /** Day 0 is 1970-01-01 and day 1 is 1970-01-02. */
  lemma FirstDaysOf1970()
    ensures Calendar.CivilFromDays(0) == Calendar.Civil(1970, 1, 1)
    ensures Calendar.CivilFromDays(1) == Calendar.Civil(1970, 1, 2)
  {
    assert 719468 / 146097 == 4 && 719469 / 146097 == 4;
    assert 135080 / 1460 == 92 && 135080 / 36524 == 3 && 135080 / 146096 == 0;
    assert 135081 / 1460 == 92 && 135081 / 36524 == 3 && 135081 / 146096 == 0;
    assert 134991 / 365 == 369 && 134992 / 365 == 369 && 369 / 4 == 92 && 369 / 100 == 3;
    assert 1532 / 153 == 10 && 1537 / 153 == 10 && 1532 / 5 == 306;
  }

  /** The intended label: a day for the daily and weekly charts, a month for the monthly ones. */
  function LabelFor(period: string): (tick: int -> Label)
    ensures NodeReports.PeriodWindow(Some(period)).unit != "month" ==> forall d :: tick(d) == DayLabel(d)
    ensures NodeReports.PeriodWindow(Some(period)).unit == "month" ==> forall d :: tick(d) == MonthOf(d)
  {
    if NodeReports.PeriodWindow(Some(period)).unit == "month" then MonthOf else (d: int) => DayLabel(d)
  }

  /** `fetchRevenueData` with the intended labels. */
  function Chart(data: Json, date: Option<Json> -> Option<int>, period: string, previous: seq<Point>): (r: seq<Point>)
    ensures !data.JArr? ==> r == previous
    ensures data.JArr? && PointsOf(data.elems, date, LabelFor(period)).Some? ==> r == PointsOf(data.elems, date, LabelFor(period)).value
  {
    if !data.JArr? then previous
    else
      var points := PointsOf(data.elems, date, LabelFor(period));
      if points.None? then previous else points.value
  }

  /** With the intended labels the daily and weekly charts label every point of the server's answer differently. */
  lemma DailyLabelsDistinct(db: NodeDb.NodeDatabase, user: int, today: int, period: string, date: Option<Json> -> Option<int>)
    requires period == "30days" || period == "3months"
    requires ReadsPeriods(NodeReports.Revenue(db, user, Some(period), today, false).value, date)
    ensures var rows := NodeReports.Revenue(db, user, Some(period), today, false).value;
            var points := Chart(RevenueJson(rows), date, period, []);
            |points| == |rows| && forall i, j :: 0 <= i < j < |points| ==> points[i].tick != points[j].tick
  {
    var rows := NodeReports.Revenue(db, user, Some(period), today, false).value;
    DayTicksDistinct(rows, date, period);
  }

  /** Rows with ascending periods, read back on a daily chart, give points with distinct labels. */
  lemma DayTicksDistinct(rows: seq<NodeReports.RevenueRow>, date: Option<Json> -> Option<int>, period: string)
    requires period == "30days" || period == "3months"
    requires ReadsPeriods(rows, date)
    requires forall i, j :: 0 <= i < j < |rows| ==> rows[i].period < rows[j].period
    ensures var points := Chart(RevenueJson(rows), date, period, []);
            |points| == |rows| && forall i, j :: 0 <= i < j < |points| ==> points[i].tick != points[j].tick
  {
    var tick := LabelFor(period);
    assert NodeReports.PeriodWindow(Some(period)).unit != "month";
    ServerRowsTicked(rows, date, tick);
    var points := Chart(RevenueJson(rows), date, period, []);
    forall i, j | 0 <= i < j < |points| ensures points[i].tick != points[j].tick {
      assert points[i].tick == DayLabel(rows[i].period) && points[j].tick == DayLabel(rows[j].period);
    }
  }

  // ---------------------------------------------------------------------------
  // Colours and exports.

  const Palette: seq<string> := ["#7c3aed", "#10b981", "#f59e0b", "#ef4444", "#3b82f6", "#8b5cf6"]

  /** `STATUS_COLORS[status]`. */
  function StatusColor(status: string): Option<string>
  {
    if status == "paid" then Some("#10b981")
    else if status == "sent" then Some("#3b82f6")
    else if status == "draft" then Some("#6b7280")
    else if status == "overdue" then Some("#ef4444")
    else if status == "partially_paid" then Some("#f59e0b")
    else if status == "cancelled" then Some("#9ca3af")
    else None
  }

  /** `STATUS_COLORS[status] || COLORS[index % COLORS.length]`: a known status keeps its colour, any other cycles the palette. */
  function SliceColor(name: Option<string>, index: nat): (c: string)
    ensures name.Some? && StatusColor(name.value).Some? ==> c == StatusColor(name.value).value
    ensures name.None? || StatusColor(name.value).None? ==> c == Palette[index % |Palette|] && c in Palette
  {
    if name.Some? && StatusColor(name.value).Some? then StatusColor(name.value).value else Palette[index % |Palette|]
  }

  /** Each known status has a colour of its own, wherever its slice falls. */
  lemma StatusColorsDistinct(a: string, b: string, i: nat, j: nat)
    requires StatusColor(a).Some? && StatusColor(b).Some? && a != b
    ensures SliceColor(Some(a), i) != SliceColor(Some(b), j)
    ensures SliceColor(Some(a), i) == SliceColor(Some(a), j)
  {
  }

  /** The `type` parameter of an export. */
  function KindName(k: NodeReports.ExportKind): string
  {
    match k
    case InvoicesExport => "invoices"
    case ClientsExport => "clients"
    case ProductsExport => "products"
  }

  /** `handleExport`: the URL fetched and the name the download is saved under. */
  function ExportUrl(base: string, k: NodeReports.ExportKind): string
  {
    base + "/api/reports/export?type=" + KindName(k)
  }

  function ExportFileName(k: NodeReports.ExportKind): string
  {
    KindName(k) + "_export.csv"
  }

  /** The server reads the page's `type` as the same export and names the file as the page does. */
  lemma ExportAgrees(k: NodeReports.ExportKind)
    ensures NodeReports.ExportKindOf(Some(KindName(k))) == Some(k)
    ensures ExportFileName(k) == NodeReports.Filename(k)
  {
    match k
    case InvoicesExport =>
      assert ExportFileName(k) == "invoices_export.csv";
    case ClientsExport =>
      assert ExportFileName(k) == "clients_export.csv";
    case ProductsExport =>
      assert ExportFileName(k) == "products_export.csv";
  }
}
