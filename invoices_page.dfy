/**
 * src/pages/Invoices.tsx: the invoice list with its status filter, the
 * displayed invoice number, the PDF download name and sending by email.
 */
module InvoicesPage {
  import opened Wrappers
  import Text
  import Grouping
  import opened MockApi
  import InvoiceEditor

  /** A listed invoice, as the page reads it. */
  datatype Row = Row(id: nat, clientName: Option<string>, status: Option<string>)

  function StatusOf(r: Row): Option<string> { r.status }

  /** The statuses the filter offers besides 'all'. */
  const Statuses: seq<Option<string>> := [Some("draft"), Some("sent"), Some("paid"), Some("overdue")]

  /** `filteredInvoices`: every invoice for 'all', otherwise those whose status is the one chosen. */
  function Shown(rows: seq<Row>, filter: string): (r: seq<Row>)
    ensures filter == "all" ==> r == rows
    ensures filter != "all" ==> |r| == Grouping.CountKey(rows, StatusOf, Some(filter))
    ensures filter != "all" ==> forall i :: 0 <= i < |r| ==> r[i].status == Some(filter)
    ensures filter != "all" ==> forall x :: x in r <==> x in rows && x.status == Some(filter)
  {
    if filter == "all" then rows
    else
      Grouping.WithKeyMembers(rows, StatusOf, Some(filter));
      Grouping.WithKey(rows, StatusOf, Some(filter))
  }

  /** The filter keeps the list's order: filtering two runs of rows is filtering each in turn. */
  lemma ShownKeepsOrder(a: seq<Row>, b: seq<Row>, filter: string)
    ensures Shown(a + b, filter) == Shown(a, filter) + Shown(b, filter)
  {
    if filter != "all" {
      Grouping.WithKeyAppend(a, b, StatusOf, Some(filter));
    }
  }

  /**
   * When every invoice has one of the four offered statuses, the four
   * filtered views together list each invoice exactly once.
   */
  lemma ViewsPartition(rows: seq<Row>)
    requires forall i :: 0 <= i < |rows| ==> rows[i].status in Statuses
    ensures |Shown(rows, "draft")| + |Shown(rows, "sent")| + |Shown(rows, "paid")| + |Shown(rows, "overdue")| == |rows|
  {
    assert Grouping.Distinct(Statuses);
    Grouping.CountsPartition(rows, StatusOf, Statuses);
    var rest := [Some("sent"), Some("paid"), Some("overdue")];
    assert Statuses[1..] == rest && rest[1..] == [Some("paid"), Some("overdue")] && rest[1..][1..] == [Some("overdue")];
    assert rest[1..][1..][1..] == [];
    var count := (k: Option<string>) => Grouping.CountKey(rows, StatusOf, k);
    assert Grouping.CountsOver(rows, StatusOf, rest[1..][1..]) == count(Some("overdue"));
    assert Grouping.CountsOver(rows, StatusOf, rest[1..]) == count(Some("paid")) + count(Some("overdue"));
    assert Grouping.CountsOver(rows, StatusOf, rest) == count(Some("sent")) + count(Some("paid")) + count(Some("overdue"));
  }

  /** `'#' + id.toString().padStart(4, '0')`. */
  function DisplayId(id: nat): (r: string)
    ensures |r| >= 5 && r[0] == '#'
    ensures id < 10000 ==> |r| == 5
  {
    Text.NatToStringValue(id);
    var digits := Text.NatToString(id);
    PadLength(id);
    "#" + Text.PadStart(digits, 4, '0')
  }

  lemma PadLength(id: nat)
    ensures id < 10000 ==> |Text.NatToString(id)| <= 4
  {
    if id < 10000 {
      assert Text.Pow10(4) == 10000;
      DigitCount(id, 4);
    }
  }

  /** A number below 10^k has at most k digits. */
  lemma {:induction false} DigitCount(n: nat, k: nat)
    requires 1 <= k && n < Text.Pow10(k)
    ensures |Text.NatToString(n)| <= k
  {
    if n >= 10 {
      assert Text.Pow10(k) == 10 * Text.Pow10(k - 1);
      DigitCount(n / 10, k - 1);
    }
  }

  /** Different invoices never show the same number: the padded digits still denote the id. */
  lemma DisplayIdDistinct(a: nat, b: nat)
    requires a != b
    ensures DisplayId(a) != DisplayId(b)
  {
    DisplayIdValue(a);
    DisplayIdValue(b);
  }

  lemma DisplayIdValue(id: nat)
    ensures Text.AllDigits(DisplayId(id)[1..]) && Text.DigitsValue(DisplayId(id)[1..]) == id
  {
    var digits := Text.NatToString(id);
    assert DisplayId(id)[1..] == Text.PadStart(digits, 4, '0');
    Text.PadStartDigits(digits, 4);
    Text.NatToStringValue(id);
  }

  /** The file a downloaded PDF is saved as: the id's digits between 'invoice-' and '.pdf'. */
  function PdfName(id: nat): (r: string)
    ensures |r| >= 12 && r[..8] == "invoice-" && r[|r| - 4..] == ".pdf"
    ensures Text.AllDigits(r[8..|r| - 4]) && Text.DigitsValue(r[8..|r| - 4]) == id
  {
    Text.NatToStringValue(id);
    var digits := Text.NatToString(id);
    var r := "invoice-" + digits + ".pdf";
    assert r[8..|r| - 4] == digits;
    r
  }

  const SentNotice: string := "Invoice sent successfully!"
  const SendFailedNotice: string := "Failed to send invoice"

  /** `handleSendEmail`: nothing unless confirmed; then a POST to the invoice's send path with an empty body. */
  function SendRequest(id: nat, confirmed: bool): (r: Option<InvoiceEditor.Request>)
    ensures r.Some? <==> confirmed
    ensures r.Some? ==> r.value.verb == InvoiceEditor.Post && r.value.body == map[]
                        && r.value.path == "/invoices/" + Text.NatToString(id) + "/send"
  {
    if confirmed then Some(InvoiceEditor.Request(InvoiceEditor.Post, "/invoices/" + Text.NatToString(id) + "/send", map[])) else None
  }

  function SendNotice(reply: Reply): (r: string)
    ensures r == SentNotice <==> reply.Value?
    ensures reply.Thrown? ==> r == SendFailedNotice
  {
    if reply.Value? then SentNotice else SendFailedNotice
  }

  /** As written, an invoice the server fails to send is still reported as sent. */
  lemma FailedSendReportsSuccess(id: nat, nowMs: nat, status: int, body: Json)
    requires !(200 <= status < 300)
    ensures SendNotice(Value(ServerPost(SendRequest(id, true).value.path, map[], nowMs, Answered(status, body)))) == SentNotice
  {
  }

  /** With the checked `post`, an answered failure is reported as one. */
  lemma FailedSendReported(id: nat, nowMs: nat, net: Net)
    ensures SendNotice(CheckedPost(SendRequest(id, true).value.path, map[], nowMs, net)) == SentNotice
            <==> Succeeded(net) || net.Unreachable?
  {
  }
}
