/**
 * backend/invoice-service/src/main.rs, the read-only half: the dashboard and
 * revenue aggregates, the naive CSV export and the plain-text body the PDF
 * handler falls back to. Every query is over the caller's invoices, clients
 * or products; the SQL aggregates are folds over those rows.
 */
module InvoiceReports {
  import opened Wrappers
  import Tables
  import Text
  import Calendar
  import opened Grouping
  import opened RustDb
  import InvoiceService

  datatype InvoiceStat = InvoiceStat(status: string, count: nat, totalAmount: real)
  /** `period` is the first day of the month, as `date_trunc('month', created_at)` gives it. */
  datatype RevenueStat = RevenueStat(period: int, revenue: real, collected: real)
  datatype ClientStats = ClientStats(totalClients: nat, activeClients: nat)
  datatype OverdueStats = OverdueStats(overdueCount: nat, overdueAmount: real)
  datatype DashboardStats = DashboardStats(
    invoiceStats: seq<InvoiceStat>, revenueStats: seq<RevenueStat>,
    clientStats: ClientStats, overdueStats: OverdueStats)

  /** The dashboard's `LIMIT 6` on the revenue series. */
  const DashboardMonths: nat := 6

  function StatusOf(i: InvoiceRow): string { i.status }
  function TotalOf(i: InvoiceRow): real { i.total }
  /** `CASE WHEN status = 'paid' THEN total ELSE 0 END`. */
  function PaidTotal(i: InvoiceRow): real { if i.status == "paid" then i.total else 0.0 }
  function PeriodOf(i: InvoiceRow): int { Calendar.MonthStart(i.createdAt) }

  /** `FROM invoices WHERE user_id = $1`. */
  function UserInvoices(db: Database, user: int): (rows: seq<InvoiceRow>)
    reads db
    ensures forall x :: x in rows ==> x in db.invoices.Values && x.userId == user
    ensures forall id :: id in db.invoices && db.invoices[id].userId == user ==> db.invoices[id] in rows
  {
    Tables.Select(db.invoices, (i: InvoiceRow) => i.userId == user)
  }

  // ---------------------------------------------------------------------------
  // `GROUP BY status`.

  /** One row per status of `statuses`: how many invoices have it and their summed total. */
  function StatsFor(rows: seq<InvoiceRow>, statuses: seq<string>): (stats: seq<InvoiceStat>)
    ensures |stats| == |statuses|
    ensures forall j :: 0 <= j < |stats| ==>
              (stats[j].status == statuses[j]
               && stats[j].count == CountKey(rows, StatusOf, statuses[j])
               && stats[j].totalAmount == SumKey(rows, StatusOf, statuses[j], TotalOf))
  {
    if statuses == [] then []
    else [InvoiceStat(statuses[0], CountKey(rows, StatusOf, statuses[0]), SumKey(rows, StatusOf, statuses[0], TotalOf))]
         + StatsFor(rows, statuses[1..])
  }

  /** `SELECT status, count(*), sum(total) ... GROUP BY status`. */
  function InvoiceStats(rows: seq<InvoiceRow>): (stats: seq<InvoiceStat>)
    ensures forall i, j :: 0 <= i < j < |stats| ==> stats[i].status != stats[j].status
    ensures forall x :: x in rows ==> exists j :: 0 <= j < |stats| && stats[j].status == x.status
    ensures forall j :: 0 <= j < |stats| ==>
              (stats[j].count > 0
               && stats[j].count == CountKey(rows, StatusOf, stats[j].status)
               && stats[j].totalAmount == SumKey(rows, StatusOf, stats[j].status, TotalOf))
  {
    var ks := Keys(rows, StatusOf);
    KeysCounted(rows, StatusOf);
    var stats := StatsFor(rows, ks);
    assert forall x :: x in rows ==> StatusOf(x) in ks;
    assert forall j :: 0 <= j < |ks| ==> stats[j].status == ks[j];
    stats
  }

  function CountSum(stats: seq<InvoiceStat>): nat
  {
    if stats == [] then 0 else stats[0].count + CountSum(stats[1..])
  }

  function AmountSum(stats: seq<InvoiceStat>): real
  {
    if stats == [] then 0.0 else stats[0].totalAmount + AmountSum(stats[1..])
  }

  lemma {:induction false} StatsForSums(rows: seq<InvoiceRow>, statuses: seq<string>)
    ensures CountSum(StatsFor(rows, statuses)) == CountsOver(rows, StatusOf, statuses)
    ensures AmountSum(StatsFor(rows, statuses)) == SumsOver(rows, StatusOf, statuses, TotalOf)
  {
    if statuses != [] {
      StatsForSums(rows, statuses[1..]);
    }
  }

  /**
   * The status groups partition the invoices: their counts add up to the
   * number of invoices and their totals to the sum of all totals.
   */
  lemma StatusGroupsPartition(rows: seq<InvoiceRow>)
    ensures CountSum(InvoiceStats(rows)) == |rows|
    ensures AmountSum(InvoiceStats(rows)) == Total(rows, TotalOf)
  {
    var ks := Keys(rows, StatusOf);
    StatsForSums(rows, ks);
    CountsPartition(rows, StatusOf, ks);
    SumsPartition(rows, StatusOf, ks, TotalOf);
  }

  // ---------------------------------------------------------------------------
  // Revenue by month.

  /** The months that hold an invoice, newest first. */
  function Periods(rows: seq<InvoiceRow>): (ps: seq<int>)
    ensures Tables.StrictlyDecreasing(ps)
    ensures forall x :: x in rows ==> PeriodOf(x) in ps
    ensures forall p :: p in ps ==> exists x :: x in rows && PeriodOf(x) == p
  {
    Tables.Descending(set x | x in rows :: PeriodOf(x))
  }

  /** One bucket per month of `periods`: the month's revenue and the part of it already paid. */
  function RevenueFor(rows: seq<InvoiceRow>, periods: seq<int>): (r: seq<RevenueStat>)
    ensures |r| == |periods|
    ensures forall j :: 0 <= j < |r| ==>
              (r[j].period == periods[j]
               && r[j].revenue == SumKey(rows, PeriodOf, periods[j], TotalOf)
               && r[j].collected == SumKey(rows, PeriodOf, periods[j], PaidTotal))
  {
    if periods == [] then []
    else [RevenueStat(periods[0], SumKey(rows, PeriodOf, periods[0], TotalOf), SumKey(rows, PeriodOf, periods[0], PaidTotal))]
         + RevenueFor(rows, periods[1..])
  }

  /**
   * `SELECT date_trunc('month', created_at) AS period, sum(total), sum(paid total)
   * ... GROUP BY period ORDER BY period DESC`: the buckets of `Periods`.
   */
  function RevenueSeries(rows: seq<InvoiceRow>): seq<RevenueStat>
  {
    RevenueFor(rows, Periods(rows))
  }

  /** With non-negative totals, every month collected at most its revenue, and neither is negative. */
  lemma CollectedAtMostRevenue(rows: seq<InvoiceRow>)
    requires forall x :: x in rows ==> x.total >= 0.0
    ensures forall j :: 0 <= j < |RevenueSeries(rows)| ==>
              0.0 <= RevenueSeries(rows)[j].collected <= RevenueSeries(rows)[j].revenue
  {
    var r := RevenueSeries(rows);
    assert forall x :: x in rows ==> 0.0 <= PaidTotal(x) <= TotalOf(x);
    forall j | 0 <= j < |r| ensures 0.0 <= r[j].collected <= r[j].revenue {
      var p := r[j].period;
      SumKeyMonotone(rows, PeriodOf, p, PaidTotal, TotalOf);
      SumKeyNonNegative(rows, PeriodOf, p, PaidTotal);
    }
  }

  function RevenueSum(r: seq<RevenueStat>): real
  {
    if r == [] then 0.0 else r[0].revenue + RevenueSum(r[1..])
  }

  lemma {:induction false} RevenueForSum(rows: seq<InvoiceRow>, periods: seq<int>)
    ensures RevenueSum(RevenueFor(rows, periods)) == SumsOver(rows, PeriodOf, periods, TotalOf)
  {
    if periods != [] {
      RevenueForSum(rows, periods[1..]);
    }
  }

  /** The monthly buckets partition the invoices: their revenues add up to the sum of all totals. */
  lemma RevenuePartition(rows: seq<InvoiceRow>)
    ensures RevenueSum(RevenueSeries(rows)) == Total(rows, TotalOf)
  {
    var ps := Periods(rows);
    assert RevenueSeries(rows) == RevenueFor(rows, ps);
    RevenueForSum(rows, ps);
    assert Distinct(ps) by {
      assert Tables.StrictlyDecreasing(ps);
    }
    forall i | 0 <= i < |rows| ensures PeriodOf(rows[i]) in ps {
      assert rows[i] in rows;
    }
    SumsPartition(rows, PeriodOf, ps, TotalOf);
  }

  // ---------------------------------------------------------------------------
  // The handlers.

  /** The caller's clients (`SELECT count(*) FROM clients WHERE user_id = $1`). */
  function ClientCount(db: Database, user: int): nat
    reads db
  {
    |set id | id in db.clients && db.clients[id].userId == user|
  }

  /**
   * `get_dashboard_stats`. `fault` says that one of its four queries fails,
   * which answers 500 whichever it is.
   */
  function Dashboard(db: Database, user: int, fault: bool): (r: Outcome<DashboardStats>)
    reads db
    ensures fault <==> r == Fail(500, DbError)
    ensures r.Ok? ==> r.value.invoiceStats == InvoiceStats(UserInvoices(db, user))
    ensures r.Ok? ==> r.value.revenueStats == Tables.Limit(RevenueSeries(UserInvoices(db, user)), DashboardMonths)
    ensures r.Ok? ==> r.value.clientStats.totalClients == ClientCount(db, user)
    ensures r.Ok? ==> r.value.clientStats.activeClients == r.value.clientStats.totalClients
    ensures r.Ok? ==> r.value.overdueStats.overdueCount == CountKey(UserInvoices(db, user), StatusOf, "overdue")
    ensures r.Ok? ==> r.value.overdueStats.overdueAmount == SumKey(UserInvoices(db, user), StatusOf, "overdue", TotalOf)
  {
    if fault then Fail(500, DbError)
    else
      var rows := UserInvoices(db, user);
      var series := RevenueSeries(rows);
      var shown := Tables.Limit(series, DashboardMonths);
      var clients := ClientCount(db, user);
      Ok(DashboardStats(InvoiceStats(rows), shown, ClientStats(clients, clients),
                        OverdueStats(CountKey(rows, StatusOf, "overdue"), SumKey(rows, StatusOf, "overdue", TotalOf))))
  }

  /** `COALESCE(sum(total), 0)`: with no overdue invoice the overdue amount is 0. */
  lemma {:induction false} NoOverdueNoAmount(rows: seq<InvoiceRow>)
    requires CountKey(rows, StatusOf, "overdue") == 0
    ensures SumKey(rows, StatusOf, "overdue", TotalOf) == 0.0
  {
    if rows != [] {
      NoOverdueNoAmount(rows[1..]);
    }
  }

  /**
   * `get_revenue_stats`: the whole monthly series; the query parameters are
   * never read. A failed query (`fault`) answers 500.
   */
  function RevenueStats(db: Database, user: int, fault: bool): (r: Outcome<seq<RevenueStat>>)
    reads db
    ensures fault <==> r == Fail(500, DbError)
    ensures !fault ==> r == Ok(RevenueSeries(UserInvoices(db, user)))
  {
    if fault then Fail(500, DbError) else Ok(RevenueSeries(UserInvoices(db, user)))
  }

  // ---------------------------------------------------------------------------
  // `export_reports`: unescaped CSV, every line ending in '\n'.

  const ClientsHeader: string := "Name,Email,Phone"
  const ProductsHeader: string := "Name,Price"
  const InvoicesHeader: string := "Invoice Number,Status,Total"

  /** `params.get("type")`, defaulting to "invoices". */
  function ExportType(typeParam: Option<string>): (t: string)
    ensures typeParam.Some? ==> t == typeParam.value
    ensures typeParam.None? ==> t == "invoices"
  {
    if typeParam.Some? then typeParam.value else "invoices"
  }

  /** `{},{},{}` of a client, a missing email or phone written as nothing. */
  function ClientLine(c: Client): string
  {
    c.name + "," + OrEmpty(c.email) + "," + OrEmpty(c.phone)
  }

  /** `{},{}` of a product; `show` is Rust's `Display` of an `f64`. */
  function ProductLine(p: Product, show: real -> string): string
  {
    p.name + "," + show(p.price)
  }

  function InvoiceLine(i: InvoiceRow, show: real -> string): string
  {
    i.invoiceNumber + "," + i.status + "," + show(i.total)
  }

  /** The header and data lines of an export, before each gets its '\n'. */
  function ExportLines(db: Database, user: int, exportType: string, show: real -> string): (lines: seq<string>)
    reads db
    ensures |lines| >= 1
    ensures exportType == "clients" ==> lines[0] == ClientsHeader
    ensures exportType == "products" ==> lines[0] == ProductsHeader
    ensures exportType != "clients" && exportType != "products" ==> lines[0] == InvoicesHeader
  {
    if exportType == "clients" then
      var cs := Tables.Select(db.clients, (c: Client) => c.userId == user);
      [ClientsHeader] + seq(|cs|, k requires 0 <= k < |cs| => ClientLine(cs[k]))
    else if exportType == "products" then
      var ps := Tables.Select(db.products, (p: Product) => p.userId == user);
      [ProductsHeader] + seq(|ps|, k requires 0 <= k < |ps| => ProductLine(ps[k], show))
    else
      var invs := UserInvoices(db, user);
      [InvoicesHeader] + seq(|invs|, k requires 0 <= k < |invs| => InvoiceLine(invs[k], show))
  }

  datatype CsvFile = CsvFile(contentType: string, filename: string, body: string)

  /**
   * `export_reports`: the body is written line by line into `w`; an unknown
   * type falls through to the invoices export, but the file is named after
   * the type as given. A failed query (`fault`) answers 500.
   */
  method ExportReports(db: Database, user: int, typeParam: Option<string>, show: real -> string, fault: bool)
    returns (r: Outcome<CsvFile>)
    ensures fault <==> r == Fail(500, DbError)
    ensures r.Ok? ==> r.value.contentType == "text/csv"
    ensures r.Ok? ==> r.value.filename == ExportType(typeParam) + "_export.csv"
    ensures r.Ok? ==> r.value.body == Text.Terminated(ExportLines(db, user, ExportType(typeParam), show))
  {
    if fault {
      return Fail(500, DbError);
    }
    var exportType := ExportType(typeParam);
    var lines := ExportLines(db, user, exportType, show);
    var w := "";
    var k := 0;
    while k < |lines|
      invariant 0 <= k <= |lines|
      invariant w == Text.Terminated(lines[..k])
    {
      Extended(lines, k, w, lines[k], "");
      assert w + lines[k] + "" == w + lines[k];
      w := w + lines[k] + "\n";
      k := k + 1;
    }
    assert lines[..k] == lines;
    r := Ok(CsvFile("text/csv", exportType + "_export.csv", w));
  }

  /** Any type other than clients and products exports the invoices. */
  lemma UnknownTypeExportsInvoices(db: Database, user: int, exportType: string, show: real -> string)
    requires exportType != "clients" && exportType != "products"
    ensures ExportLines(db, user, exportType, show) == ExportLines(db, user, "invoices", show)
  {
  }

  /** With no newline in any value, the export splits back into its header and rows, then an empty field. */
  lemma ExportSplitsIntoLines(db: Database, user: int, exportType: string, show: real -> string)
    requires forall i :: 0 <= i < |ExportLines(db, user, exportType, show)| ==> '\n' !in ExportLines(db, user, exportType, show)[i]
    ensures Text.Split(Text.Terminated(ExportLines(db, user, exportType, show)), '\n')
            == ExportLines(db, user, exportType, show) + [""]
  {
    Text.SplitTerminated(ExportLines(db, user, exportType, show));
  }

  /** A client line without commas in its values splits back into name, email and phone. */
  lemma ClientLineFields(c: Client)
    requires ',' !in c.name && ',' !in OrEmpty(c.email) && ',' !in OrEmpty(c.phone)
    ensures Text.Split(ClientLine(c), ',') == [c.name, OrEmpty(c.email), OrEmpty(c.phone)]
  {
    var e, p := OrEmpty(c.email), OrEmpty(c.phone);
    assert ClientLine(c) == c.name + [','] + (e + [','] + p);
    Text.SplitAround(c.name, e + [','] + p, ',');
    Text.SplitAround(e, p, ',');
    Text.SplitPlain(p, ',');
  }

  /** Nothing is quoted: a comma inside a client's name shifts the row to four fields. */
  lemma CommaInNameAddsField(c: Client, first: string, second: string)
    requires c.name == first + "," + second
    requires ',' !in first && ',' !in second && ',' !in OrEmpty(c.email) && ',' !in OrEmpty(c.phone)
    ensures |Text.Split(ClientLine(c), ',')| == 4
  {
    var e, p := OrEmpty(c.email), OrEmpty(c.phone);
    assert ClientLine(c) == first + [','] + (second + [','] + (e + [','] + p));
    Text.SplitAround(first, second + [','] + (e + [','] + p), ',');
    Text.SplitAround(second, e + [','] + p, ',');
    Text.SplitAround(e, p, ',');
    Text.SplitPlain(p, ',');
  }

  // ---------------------------------------------------------------------------
  // `generate_invoice_pdf` when no font can be loaded.

  /** Written in pieces only so that the verifier can see it holds no newline. */
  const FallbackTitle: string := "Invoice PDF Content " + "(Simulated as fonts " + "missing in build " + "environment)"

  /** The lines of the fallback body, each written with a trailing '\n'. */
  function FallbackLines(invoiceNumber: string, clientName: Option<string>, total: real, show: real -> string): (lines: seq<string>)
    ensures |lines| == 5 && lines[1] == ""
  {
    [FallbackTitle, "", "Invoice: " + invoiceNumber, "Client: " + OrEmpty(clientName), "Total: $" + show(total)]
  }

  /** The byte buffer the fallback branch extends, one piece at a time. */
  method FallbackBody(invoiceNumber: string, clientName: Option<string>, total: real, show: real -> string)
    returns (buffer: string)
    ensures buffer == Text.Terminated(FallbackLines(invoiceNumber, clientName, total, show))
  {
    ghost var lines := FallbackLines(invoiceNumber, clientName, total, show);
    buffer := [];
    buffer := buffer + FallbackTitle + "\n\n";
    assert buffer == Text.Terminated(lines[..2]) by {
      assert lines[..2] == [FallbackTitle] + [""];
      Text.TerminatedAppend([FallbackTitle], [""]);
    }
    Extended(lines, 2, buffer, "Invoice: ", invoiceNumber);
    buffer := buffer + "Invoice: " + invoiceNumber + "\n";
    Extended(lines, 3, buffer, "Client: ", OrEmpty(clientName));
    buffer := buffer + "Client: " + OrEmpty(clientName) + "\n";
    Extended(lines, 4, buffer, "Total: $", show(total));
    buffer := buffer + "Total: $" + show(total) + "\n";
    assert lines[..5] == lines;
  }

  /** Writing line `k`, in two pieces, after the first `k` lines gives the first `k + 1`. */
  lemma Extended(lines: seq<string>, k: nat, before: string, head: string, value: string)
    requires k < |lines|
    requires before == Text.Terminated(lines[..k]) && lines[k] == head + value
    ensures before + head + value + "\n" == Text.Terminated(lines[..k + 1])
  {
    assert lines[..k + 1] == lines[..k] + [lines[k]];
    Text.TerminatedAppend(lines[..k], [lines[k]]);
  }

  /** With no newline in the number, name or rendered total, the body splits into its five lines. */
  lemma FallbackSplits(invoiceNumber: string, clientName: Option<string>, total: real, show: real -> string)
    requires '\n' !in invoiceNumber && '\n' !in OrEmpty(clientName) && '\n' !in show(total)
    ensures Text.Split(Text.Terminated(FallbackLines(invoiceNumber, clientName, total, show)), '\n')
            == FallbackLines(invoiceNumber, clientName, total, show) + [""]
  {
    var lines := FallbackLines(invoiceNumber, clientName, total, show);
    forall i | 0 <= i < |lines| ensures '\n' !in lines[i] {
      if i == 0 {
        assert '\n' !in "Invoice PDF Content ";
        assert '\n' !in "(Simulated as fonts ";
        assert '\n' !in "missing in build ";
        assert '\n' !in "environment)";
      } else if i == 2 { assert lines[i] == "Invoice: " + invoiceNumber; }
      else if i == 3 { assert lines[i] == "Client: " + OrEmpty(clientName); }
      else if i == 4 { assert lines[i] == "Total: $" + show(total); }
    }
    Text.SplitTerminated(lines);
  }

  datatype PdfFile = PdfFile(contentType: string, filename: string, body: string)

  /** The attachment name, `invoice_{number}.pdf`. */
  function PdfFilename(invoiceNumber: string): string
  {
    "invoice_" + invoiceNumber + ".pdf"
  }

  /**
   * `generate_invoice_pdf` with no font available. Queries: 0 the invoice,
   * 1 its items, run only when the caller owns the invoice; `fault` names the
   * one that fails and answers 500. Otherwise 404 unless the caller owns it.
   */
  method GeneratePdf(db: Database, user: int, id: int, show: real -> string, fault: Option<nat>) returns (r: Outcome<PdfFile>)
    ensures r.Ok? <==> InvoiceService.OwnsInvoice(db, user, id) && fault != Some(0) && fault != Some(1)
    ensures fault == Some(0) ==> r == Fail(500, DbError)
    ensures fault != Some(0) && !InvoiceService.OwnsInvoice(db, user, id) ==> r == Fail(404, InvoiceService.NotFound)
    ensures fault == Some(1) && InvoiceService.OwnsInvoice(db, user, id) ==> r == Fail(500, DbError)
    ensures r.Ok? ==> var inv := db.invoices[id];
              r.value.contentType == "application/pdf"
              && r.value.filename == PdfFilename(inv.invoiceNumber)
              && r.value.body == Text.Terminated(FallbackLines(inv.invoiceNumber, InvoiceService.JoinedName(db, inv.clientId), inv.total, show))
  {
    if fault == Some(0) {
      return Fail(500, DbError);
    }
    if !InvoiceService.OwnsInvoice(db, user, id) {
      return Fail(404, InvoiceService.NotFound);
    }
    if fault == Some(1) {
      return Fail(500, DbError);
    }
    var inv := db.invoices[id];
    var body := FallbackBody(inv.invoiceNumber, InvoiceService.JoinedName(db, inv.clientId), inv.total, show);
    return Ok(PdfFile("application/pdf", PdfFilename(inv.invoiceNumber), body));
  }
}
