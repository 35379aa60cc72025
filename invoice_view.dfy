/**
 * src/pages/InvoiceView.tsx: the page that shows one invoice through a
 * template. It maps the loaded invoice to the template's data with `||`
 * defaults, picks the template by `template_type`, shows the joined client
 * (or a placeholder), offers Send and Mark Paid while the invoice is not
 * 'paid', and records a payment of the whole total on Mark Paid. The invoice
 * is the one `GET /api/invoices/:id` of server/index.js answers and the
 * payment goes to server/routes/payments.js.
 */
module InvoiceViewPage {
  import opened Wrappers
  import Calendar
  import Text
  import opened MockApi
  import opened JsNumber
  import InvoiceEditor
  import NodeDb
  import NodeInvoices
  import NodePayments

  /** `x.k` of a loaded value: a member of an object; anything else has no such member (`undefined`). */
  function Field(x: Json, k: string): (r: Option<Json>)
    ensures r.Some? <==> x.JObj? && k in x.fields
    ensures r.Some? ==> r.value == x.fields[k]
  {
    if x.JObj? then InvoiceEditor.Member(x.fields, k) else None
  }

  /** `a || b`: `a` when it is truthy, `b` otherwise. */
  function Or(a: Option<Json>, b: Option<Json>): (r: Option<Json>)
    ensures a.Some? && Truthy(a.value) ==> r == a
    ensures a.None? || !Truthy(a.value) ==> r == b
  {
    if a.Some? && Truthy(a.value) then a else b
  }

  // ---------------------------------------------------------------------------
  // The template's data.

  /**
   * The `data` object handed to the template; `date` is the
   * `toLocaleDateString()` text of the invoice's date.
   */
  datatype TemplateData = TemplateData(id: Option<Json>, date: string, dueDate: Option<Json>, items: Option<Json>,
                                       total: Num, subtotal: Num, taxAmount: Num, discount: Num)

  /**
   * The mapping: the invoice number or else the id, the issue date or else
   * the creation date, the subtotal or else the total, no tax and no discount
   * when absent; `None` where a value is not rendered.
   */
  function DataOf(inv: Json, localDate: Option<Json> -> string): (r: Option<TemplateData>)
    ensures r.Some? ==> r.value.id == Or(Field(inv, "invoice_number"), Field(inv, "id"))
    ensures r.Some? ==> r.value.date == localDate(Or(Field(inv, "issue_date"), Field(inv, "created_at")))
    ensures r.Some? ==> Some(r.value.total) == ParseFloatOf(Field(inv, "total"))
    ensures r.Some? ==> Some(r.value.subtotal) == ParseFloatOf(Or(Field(inv, "subtotal"), Field(inv, "total")))
    ensures r.Some? ==> Some(r.value.taxAmount) == ParseFloatOrZero(Field(inv, "tax_amount"))
    ensures r.Some? ==> Some(r.value.discount) == ParseFloatOrZero(Field(inv, "discount"))
  {
    var total := ParseFloatOf(Field(inv, "total"));
    var subtotal := ParseFloatOf(Or(Field(inv, "subtotal"), Field(inv, "total")));
    var tax := ParseFloatOrZero(Field(inv, "tax_amount"));
    var discount := ParseFloatOrZero(Field(inv, "discount"));
    if total.None? || subtotal.None? || tax.None? || discount.None? then None
    else
      Some(TemplateData(Or(Field(inv, "invoice_number"), Field(inv, "id")),
                        localDate(Or(Field(inv, "issue_date"), Field(inv, "created_at"))),
                        Field(inv, "due_date"), Field(inv, "items"), total.value, subtotal.value, tax.value, discount.value))
  }

  datatype Template = Minimalist | Professional | Creative

  /** `{...}[template_type || 'minimalist'] || MinimalistTemplate`: an unknown or missing name falls back to the minimalist one. */
  function TemplateOf(t: Option<Json>): (r: Template)
    ensures r == Professional <==> t == Some(JStr("professional"))
    ensures r == Creative <==> t == Some(JStr("creative"))
  {
    var name := if t.Some? && t.value.JStr? && t.value.s != "" then t.value.s else "minimalist";
    if name == "professional" then Professional
    else if name == "creative" then Creative
    else Minimalist
  }

  // ---------------------------------------------------------------------------
  // The client and the actions.

  /** The client block of the template. */
  datatype ClientInfo = ClientInfo(name: Option<Json>, email: Option<Json>, address: Option<Json>)

  const Placeholder: ClientInfo := ClientInfo(Some(JStr("Unknown Client")), Some(JStr("")), Some(JStr("")))

  /**
   * `fetchInvoice`'s client: the joined `client_*` columns when `client_id`
   * is truthy, otherwise whatever client was shown before; `None` for a null
   * answer, where reading `data.client_id` throws and the page navigates away.
   */
  function LoadedClient(data: Json, previous: Option<ClientInfo>): (r: Option<Option<ClientInfo>>)
    ensures r.None? <==> data == JNull
    ensures r.Some? && !(Field(data, "client_id").Some? && Truthy(Field(data, "client_id").value)) ==> r.value == previous
    ensures r.Some? && Field(data, "client_id").Some? && Truthy(Field(data, "client_id").value) ==>
              r.value == Some(ClientInfo(Field(data, "client_name"), Field(data, "client_email"), Field(data, "client_address")))
  {
    if data == JNull then None
    else
      var id := Field(data, "client_id");
      if id.Some? && Truthy(id.value) then
        Some(Some(ClientInfo(Field(data, "client_name"), Field(data, "client_email"), Field(data, "client_address"))))
      else Some(previous)
  }

  /** `client || { name: 'Unknown Client', email: '', address: '' }`. */
  function ShownClient(c: Option<ClientInfo>): (r: ClientInfo)
    ensures c.None? ==> r == Placeholder
    ensures c.Some? ==> r == c.value
  {
    if c.Some? then c.value else Placeholder
  }

  datatype Action = Edit | Print | Send | MarkPaid

  /** The header buttons: Edit and Print always; Send and Mark Paid unless the status is exactly 'paid'. */
  function Actions(status: Option<Json>): (r: seq<Action>)
    ensures Edit in r && Print in r
    ensures Send in r <==> status != Some(JStr("paid"))
    ensures MarkPaid in r <==> status != Some(JStr("paid"))
  {
    if status == Some(JStr("paid")) then [Edit, Print] else [Edit, Print, Send, MarkPaid]
  }

  /** What the page draws. `Unrendered` holds a value the model does not render. */
  datatype Page = Loading | NotFound | Unrendered
                | Shown(data: TemplateData, template: Template, client: ClientInfo, actions: seq<Action>)

  function PageOf(loading: bool, invoice: Json, client: Option<ClientInfo>, localDate: Option<Json> -> string): (r: Page)
    ensures loading <==> r == Loading
    ensures !loading && !Truthy(invoice) ==> r == NotFound
    ensures r.Shown? ==> Some(r.data) == DataOf(invoice, localDate) && r.client == ShownClient(client)
    ensures r.Shown? ==> r.template == TemplateOf(Field(invoice, "template_type")) && r.actions == Actions(Field(invoice, "status"))
  {
    if loading then Loading
    else if !Truthy(invoice) then NotFound
    else
      var data := DataOf(invoice, localDate);
      if data.None? then Unrendered
      else Shown(data.value, TemplateOf(Field(invoice, "template_type")), ShownClient(client), Actions(Field(invoice, "status")))
  }

  // ---------------------------------------------------------------------------
  // Mark Paid.

  /**
   * `handleMarkPaid`'s body as written: the whole `invoice.total`, today's
   * date, method 'Manual' and a fixed note; `JSON.stringify` drops an
   * undefined total.
   */
  function MarkPaidBodyAsWritten(inv: Json, nowMs: int): (b: map<string, Json>)
    ensures "amount" in b <==> Field(inv, "total").Some?
    ensures "amount" in b ==> b["amount"] == Field(inv, "total").value
    ensures "payment_date" in b && b["payment_date"] == JStr(InvoiceEditor.DayOf(nowMs))
    ensures "payment_method" in b && b["payment_method"] == JStr("Manual")
    ensures "notes" in b && b["notes"] == JStr("Marked as paid manually")
  {
    var rest := map["payment_method" := JStr("Manual"), "payment_date" := JStr(InvoiceEditor.DayOf(nowMs)),
                    "notes" := JStr("Marked as paid manually")];
    var total := Field(inv, "total");
    if total.Some? then rest["amount" := total.value] else rest
  }

  function MarkPaidPath(id: string): string
  {
    "/invoices/" + id + "/payments"
  }

  /**
   * The payment the server's record handler reads from a body: the amount
   * as `parseFloat` reads it (a number as itself, text as parsed, nothing
   * for anything else or for text that is NaN), the date read by `day`, the
   * method and the notes.
   */
  function Received(b: map<string, Json>, day: Json -> Option<int>): (input: NodePayments.PaymentInput)
    ensures "amount" in b && b["amount"].JNum? ==> input.amount == Some(b["amount"].n)
    ensures "amount" in b && b["amount"].JStr? ==> input.amount == Text.ParseFloat(b["amount"].s)
    ensures "amount" !in b ==> input.amount.None?
  {
    NodePayments.PaymentInput(
      if "amount" !in b then None
      else if b["amount"].JNum? then Some(b["amount"].n)
      else if b["amount"].JStr? then Text.ParseFloat(b["amount"].s)
      else None,
      if "payment_date" in b then day(b["payment_date"]) else None,
      if "payment_method" in b && b["payment_method"].JStr? then Some(b["payment_method"].s) else None,
      None,
      if "notes" in b && b["notes"].JStr? then Some(b["notes"].s) else None)
  }

  // ---------------------------------------------------------------------------
  // The server's invoice.

  /**
   * `SELECT i.*, c.name as client_name, ...` as the driver sends it, as far
   * as the page reads it: the ids as numbers, the money columns as decimal
   * text.
   */
  function InvoiceJson(v: NodeInvoices.InvoiceView): Json
  {
    var r := v.row;
    JObj(map["id" := JNum(r.id as real), "invoice_number" := TextJson(r.invoiceNumber), "status" := TextJson(r.status),
             "client_id" := NumJson(if r.clientId.Some? then Some(r.clientId.value as real) else None),
             "total" := DecimalJson(r.total), "paid_amount" := DecimalJson(Some(r.paidAmount)),
             "subtotal" := DecimalJson(r.charges.subtotal), "tax_amount" := DecimalJson(r.charges.taxAmount),
             "discount" := DecimalJson(r.charges.discount), "issue_date" := JStr(Calendar.IsoDate(r.issueDate)),
             "client_name" := TextJson(v.clientName), "client_email" := TextJson(v.clientEmail),
             "client_address" := TextJson(v.clientAddress)])
  }

  lemma InvoiceMembers(v: NodeInvoices.InvoiceView)
    ensures Field(InvoiceJson(v), "id") == Some(JNum(v.row.id as real))
    ensures Field(InvoiceJson(v), "invoice_number") == Some(TextJson(v.row.invoiceNumber))
  {
    TotalMembers(v);
  }

  lemma TotalMembers(v: NodeInvoices.InvoiceView)
    ensures Field(InvoiceJson(v), "status") == Some(TextJson(v.row.status))
    ensures Field(InvoiceJson(v), "total") == Some(DecimalJson(v.row.total))
  {
  }

  lemma ChargeMembers(v: NodeInvoices.InvoiceView)
    ensures Field(InvoiceJson(v), "paid_amount") == Some(DecimalJson(Some(v.row.paidAmount)))
    ensures Field(InvoiceJson(v), "subtotal") == Some(DecimalJson(v.row.charges.subtotal))
    ensures Field(InvoiceJson(v), "tax_amount") == Some(DecimalJson(v.row.charges.taxAmount))
    ensures Field(InvoiceJson(v), "discount") == Some(DecimalJson(v.row.charges.discount))
  {
    AdjustmentMembers(v);
  }

  lemma AdjustmentMembers(v: NodeInvoices.InvoiceView)
    ensures Field(InvoiceJson(v), "tax_amount") == Some(DecimalJson(v.row.charges.taxAmount))
    ensures Field(InvoiceJson(v), "discount") == Some(DecimalJson(v.row.charges.discount))
  {
  }

  lemma ClientMembers(v: NodeInvoices.InvoiceView)
    ensures Field(InvoiceJson(v), "client_id") == Some(NumJson(if v.row.clientId.Some? then Some(v.row.clientId.value as real) else None))
    ensures Field(InvoiceJson(v), "client_name") == Some(TextJson(v.clientName))
    ensures Field(InvoiceJson(v), "client_email") == Some(TextJson(v.clientEmail))
    ensures Field(InvoiceJson(v), "client_address") == Some(TextJson(v.clientAddress))
  {
    ContactMembers(v);
  }

  lemma ContactMembers(v: NodeInvoices.InvoiceView)
    ensures Field(InvoiceJson(v), "client_email") == Some(TextJson(v.clientEmail))
    ensures Field(InvoiceJson(v), "client_address") == Some(TextJson(v.clientAddress))
  {
  }

  /** The money columns of an invoice hold whole cents, as a two-place NUMERIC column does. */
  predicate InCents(r: NodeDb.NInvoice)
  {
    Cents(r.total) && Cents(Some(r.paidAmount)) && Cents(r.charges.subtotal)
    && Cents(r.charges.taxAmount) && Cents(r.charges.discount)
  }

  /**
   * The heading shows the invoice number when the server has a non-empty
   * one and the numeric id otherwise; a missing subtotal shows the total,
   * while a zero one, sent as the truthy text '0.00', shows 0; a missing tax
   * or discount shows 0.
   */
  lemma ServerInvoiceData(v: NodeInvoices.InvoiceView, localDate: Option<Json> -> string)
    requires InCents(v.row)
    ensures DataOf(InvoiceJson(v), localDate).Some?
    ensures v.row.invoiceNumber.Some? && v.row.invoiceNumber.value != "" ==>
              DataOf(InvoiceJson(v), localDate).value.id == Some(JStr(v.row.invoiceNumber.value))
    ensures v.row.invoiceNumber.None? || v.row.invoiceNumber.value == "" ==>
              DataOf(InvoiceJson(v), localDate).value.id == Some(JNum(v.row.id as real))
    ensures DataOf(InvoiceJson(v), localDate).value.total == (if v.row.total.Some? then Finite(v.row.total.value) else NaN)
    ensures v.row.charges.subtotal.None? ==>
              DataOf(InvoiceJson(v), localDate).value.subtotal == DataOf(InvoiceJson(v), localDate).value.total
    ensures v.row.charges.subtotal.Some? ==>
              DataOf(InvoiceJson(v), localDate).value.subtotal == Finite(v.row.charges.subtotal.value)
    ensures DataOf(InvoiceJson(v), localDate).value.taxAmount == Finite(if v.row.charges.taxAmount.Some? then v.row.charges.taxAmount.value else 0.0)
    ensures DataOf(InvoiceJson(v), localDate).value.discount == Finite(if v.row.charges.discount.Some? then v.row.charges.discount.value else 0.0)
  {
    InvoiceMembers(v);
    ChargeMembers(v);
    RowData(InvoiceJson(v), localDate, v.row.id as real, v.row.invoiceNumber, v.row.total, v.row.charges);
  }

  /** `DataOf` over any object whose members are those of an invoice row. */
  lemma RowData(inv: Json, localDate: Option<Json> -> string, id: real, number: Option<string>, total: Option<real>,
                charges: NodeDb.Charges)
    requires Cents(total) && Cents(charges.subtotal) && Cents(charges.taxAmount) && Cents(charges.discount)
    requires Field(inv, "id") == Some(JNum(id)) && Field(inv, "invoice_number") == Some(TextJson(number))
    requires Field(inv, "total") == Some(DecimalJson(total)) && Field(inv, "subtotal") == Some(DecimalJson(charges.subtotal))
    requires Field(inv, "tax_amount") == Some(DecimalJson(charges.taxAmount)) && Field(inv, "discount") == Some(DecimalJson(charges.discount))
    ensures DataOf(inv, localDate).Some?
    ensures number.Some? && number.value != "" ==> DataOf(inv, localDate).value.id == Some(JStr(number.value))
    ensures number.None? || number.value == "" ==> DataOf(inv, localDate).value.id == Some(JNum(id))
    ensures DataOf(inv, localDate).value.total == (if total.Some? then Finite(total.value) else NaN)
    ensures charges.subtotal.None? ==> DataOf(inv, localDate).value.subtotal == DataOf(inv, localDate).value.total
    ensures charges.subtotal.Some? ==> DataOf(inv, localDate).value.subtotal == Finite(charges.subtotal.value)
    ensures DataOf(inv, localDate).value.taxAmount == Finite(if charges.taxAmount.Some? then charges.taxAmount.value else 0.0)
    ensures DataOf(inv, localDate).value.discount == Finite(if charges.discount.Some? then charges.discount.value else 0.0)
  {
    DecimalReadsBack(total);
    DecimalReadsBack(charges.subtotal);
    DecimalOrZero(charges.taxAmount);
    DecimalOrZero(charges.discount);
  }

  /**
   * With a client the template shows the joined name, email and address;
   * without one (no `client_id`) a page that had no client shows the
   * placeholder 'Unknown Client'.
   */
  lemma ServerInvoiceClient(v: NodeInvoices.InvoiceView)
    ensures LoadedClient(InvoiceJson(v), None).Some?
    ensures v.row.clientId.Some? && v.row.clientId.value != 0 ==>
              ShownClient(LoadedClient(InvoiceJson(v), None).value)
                == ClientInfo(Some(TextJson(v.clientName)), Some(TextJson(v.clientEmail)), Some(TextJson(v.clientAddress)))
    ensures v.row.clientId.None? ==> ShownClient(LoadedClient(InvoiceJson(v), None).value) == Placeholder
  {
    ClientMembers(v);
  }

  /**
   * Mark Paid is offered on a partly paid invoice, yet asks to pay the whole
   * total again: the server's record handler finds the new paid amount over
   * the total and refuses the payment with its 400 answer.
   */
  lemma MarkPaidOverpays(v: NodeInvoices.InvoiceView, nowMs: int, day: Json -> Option<int>)
    requires v.row.total.Some? && 0.0 < v.row.paidAmount < v.row.total.value
    requires v.row.status == Some("partially_paid") && Cents(v.row.total)
    ensures MarkPaid in Actions(Field(InvoiceJson(v), "status"))
    ensures Received(MarkPaidBodyAsWritten(InvoiceJson(v), nowMs), day).amount == v.row.total
    ensures NodePayments.ValidAmount(v.row.total)
    ensures NodePayments.Overpays(v.row.paidAmount + v.row.total.value, v.row.total)
  {
    TotalMembers(v);
    Text.ParseFloatOfCents(v.row.total.value);
  }

  /** The balance `parseFloat(total) - parseFloat(paid_amount)`, when both members read as numbers. */
  function BalanceDue(inv: Json): Option<real>
  {
    var total, paid := ParseFloatOf(Field(inv, "total")), ParseFloatOf(Field(inv, "paid_amount"));
    if total.Some? && total.value.Finite? && paid.Some? && paid.value.Finite? then Some(total.value.v - paid.value.v)
    else None
  }

  /**
   * The intended Mark Paid body: the balance
   * `parseFloat(total) - parseFloat(paid_amount)` when both read as numbers,
   * otherwise the total as before.
   */
  function MarkPaidBody(inv: Json, nowMs: int): (b: map<string, Json>)
    ensures "payment_date" in b && b["payment_date"] == JStr(InvoiceEditor.DayOf(nowMs))
    ensures "payment_method" in b && b["payment_method"] == JStr("Manual")
    ensures "notes" in b && b["notes"] == JStr("Marked as paid manually")
    ensures Field(inv, "total").Some? ==> "amount" in b
    ensures BalanceDue(inv).Some? ==> "amount" in b && b["amount"] == JNum(BalanceDue(inv).value)
  {
    var body := MarkPaidBodyAsWritten(inv, nowMs);
    var due := BalanceDue(inv);
    if due.Some? then body["amount" := JNum(due.value)] else body
  }

  /**
   * Paying the balance of an invoice not yet settled, whose total and paid
   * amount read as numbers (as the server's two-place decimal text does, by
   * `DecimalReading`), passes the record handler's checks and leaves it
   * 'paid'.
   */
  lemma BalancePaymentSettles(inv: Json, nowMs: int, day: Json -> Option<int>, total: real, paid: real, status: Option<string>)
    requires paid < total
    requires ParseFloatOf(Field(inv, "total")) == Some(Finite(total))
    requires ParseFloatOf(Field(inv, "paid_amount")) == Some(Finite(paid))
    ensures Received(MarkPaidBody(inv, nowMs), day).amount == Some(total - paid)
    ensures NodePayments.ValidAmount(Some(total - paid))
    ensures !NodePayments.Overpays(paid + (total - paid), Some(total))
    ensures NodePayments.RecordedStatus(paid + (total - paid), Some(total), status) == Some("paid")
  {
    DueOfReadings(inv, total, paid);
    BalanceOfReadings(inv, nowMs, day, total - paid);
    BalanceSettles(total, paid, status);
  }

  /** A payment of the balance is positive, does not overpay and reaches the total. */
  lemma BalanceSettles(total: real, paid: real, status: Option<string>)
    requires paid < total
    ensures NodePayments.ValidAmount(Some(total - paid))
    ensures !NodePayments.Overpays(paid + (total - paid), Some(total))
    ensures NodePayments.RecordedStatus(paid + (total - paid), Some(total), status) == Some("paid")
  {
  }

  /** A member sent as decimal text reads back as its value. */
  lemma DecimalReading(inv: Json, key: string, x: real)
    requires Cents(Some(x)) && Field(inv, key) == Some(DecimalJson(Some(x)))
    ensures ParseFloatOf(Field(inv, key)) == Some(Finite(x))
  {
    DecimalReadsBack(Some(x));
  }

  /** The server's invoice total and paid amount, sent as decimal text, read back as themselves. */
  lemma ServerReadings(v: NodeInvoices.InvoiceView)
    requires v.row.total.Some? && Cents(v.row.total) && Cents(Some(v.row.paidAmount))
    ensures ParseFloatOf(Field(InvoiceJson(v), "total")) == Some(Finite(v.row.total.value))
    ensures ParseFloatOf(Field(InvoiceJson(v), "paid_amount")) == Some(Finite(v.row.paidAmount))
  {
    BalanceMembers(v);
    DecimalReading(InvoiceJson(v), "total", v.row.total.value);
    DecimalReading(InvoiceJson(v), "paid_amount", v.row.paidAmount);
  }

  /** The balance is the difference of whatever `total` and `paid_amount` read as, when both are numbers. */
  lemma DueOfReadings(inv: Json, total: real, paid: real)
    requires ParseFloatOf(Field(inv, "total")) == Some(Finite(total))
    requires ParseFloatOf(Field(inv, "paid_amount")) == Some(Finite(paid))
    ensures BalanceDue(inv) == Some(total - paid)
  {
  }

  /** The corrected body posts the balance as a number, which the handler reads as itself. */
  lemma BalanceOfReadings(inv: Json, nowMs: int, day: Json -> Option<int>, due: real)
    requires BalanceDue(inv) == Some(due)
    ensures Received(MarkPaidBody(inv, nowMs), day).amount == Some(due)
  {
  }

  /** The server's invoice sends its total and paid amount as two-place decimal text. */
  lemma BalanceMembers(v: NodeInvoices.InvoiceView)
    ensures Field(InvoiceJson(v), "total") == Some(DecimalJson(v.row.total))
    ensures Field(InvoiceJson(v), "paid_amount") == Some(DecimalJson(Some(v.row.paidAmount)))
  {
  }

  /** Once the server records 'paid', the reloaded page offers neither Send nor Mark Paid. */
  lemma PaidOffersNoPayment(newPaid: real, total: Option<real>, current: Option<string>)
    requires total.Some? && newPaid >= total.value
    ensures MarkPaid !in Actions(Some(TextJson(NodePayments.RecordedStatus(newPaid, total, current))))
    ensures Send !in Actions(Some(TextJson(NodePayments.RecordedStatus(newPaid, total, current))))
  {
  }
}
