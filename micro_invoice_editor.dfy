/**
 * micro/src/pages/InvoiceEditor.tsx: the invoice editor of the micro-frontend.
 * Its line items behave as in the main editor; its save sends whatever the
 * form holds, client or not, with a fixed `user_id` of 1.
 */
module MicroInvoiceEditor {
  import opened Wrappers
  import Text
  import opened LineItems
  import opened MockApi
  import InvoiceEditor

  datatype Form<I> = Form(clientId: string, status: string, dueDate: string, items: seq<I>)

  function Values(f: Form<Item>): Form<Line>
    reads set x | x in f.items
  {
    Form(f.clientId, f.status, f.dueDate, Lines(f.items))
  }

  /** A new invoice: no client, a draft, due 7 days from now, no items. */
  function InitialForm<I>(nowMs: int): Form<I>
  {
    Form("", "draft", InvoiceEditor.DefaultDueDate(false, nowMs), [])
  }

  function PayloadObject(f: Form<Line>, client: Json, items: Json, total: real): (p: map<string, Json>)
    ensures "client_id" in p && p["client_id"] == client && "items" in p && p["items"] == items
    ensures "total" in p && p["total"] == JNum(total) && "user_id" in p && p["user_id"] == JNum(1.0)
    ensures "status" in p && p["status"] == JStr(f.status) && "due_date" in p && p["due_date"] == JStr(f.dueDate)
    ensures p.Keys == {"client_id", "status", "due_date", "items", "total", "user_id"}
  {
    map["client_id" := client, "status" := JStr(f.status), "due_date" := JStr(f.dueDate), "items" := items,
        "total" := JNum(total), "user_id" := JNum(1.0)]
  }

  /** The saved payload: the form, the client id as a number (null when it is not one), the total and user 1. */
  function Payload(f: Form<Line>): (p: map<string, Json>)
    ensures "client_id" in p && p["client_id"] == InvoiceEditor.ClientIdJson(f.clientId)
    ensures "total" in p && p["total"] == JNum(Total(f.items))
    ensures "user_id" in p && p["user_id"] == JNum(1.0)
  {
    PayloadObject(f, InvoiceEditor.ClientIdJson(f.clientId), JArr(LinesJson(f.items)), Total(f.items))
  }

  /** `handleSave`: always sends, PUT to the invoice when editing one and POST otherwise. */
  function Save(f: Form<Line>, id: Option<string>): (r: InvoiceEditor.Request)
    ensures r.body == Payload(f)
    ensures TruthyText(id) ==> r.verb == InvoiceEditor.Put && r.path == "/invoices/" + id.value
    ensures !TruthyText(id) ==> r.verb == InvoiceEditor.Post && r.path == "/invoices"
  {
    if TruthyText(id) then InvoiceEditor.Request(InvoiceEditor.Put, "/invoices/" + id.value, Payload(f))
    else InvoiceEditor.Request(InvoiceEditor.Post, "/invoices", Payload(f))
  }

  /** Without a client the invoice is still sent, its `client_id` being NaN, which travels as null. */
  lemma SavesWithoutClient(f: Form<Line>, id: Option<string>)
    requires f.clientId == ""
    ensures Save(f, id).body["client_id"] == JNull
  {
  }

  /** `x.toString()` for a client id; `None` where it throws (null, missing) or is not rendered. */
  function ClientIdText(x: Option<Json>): (r: Option<string>)
    ensures x.None? || x == Some(JNull) ==> r.None?
    ensures x.Some? && x.value.JNum? && x.value.n == x.value.n.Floor as real ==> r == Some(Text.IntToString(x.value.n.Floor))
  {
    if x.Some? && x.value.JNum? && x.value.n == x.value.n.Floor as real then Some(Text.IntToString(x.value.n.Floor))
    else if x.Some? && x.value.JStr? then Some(x.value.s)
    else None
  }

  /**
   * Where `fetchInvoice` throws and the form keeps what it held: an answer
   * that is not an object, a missing or null `client_id` (`toString` of it),
   * a due date `toISOString` refuses, or items that are not an array.
   */
  predicate LoadThrows(data: Json, day: Option<Json> -> Option<string>)
  {
    !data.JObj? || "client_id" !in data.fields || data.fields["client_id"] == JNull
    || day(InvoiceEditor.Member(data.fields, "due_date")).None?
    || !InvoiceEditor.IsArray(InvoiceEditor.Member(data.fields, "items"))
  }

  /**
   * `fetchInvoice`: the form shown for a loaded invoice; `None` where the load
   * throws, or where it holds a client id, status or item of a JSON type the
   * model does not render.
   */
  function Loaded(data: Json, day: Option<Json> -> Option<string>): (r: Option<Form<Line>>)
    ensures LoadThrows(data, day) ==> r.None?
    ensures !LoadThrows(data, day) && r.None? ==>
              ClientIdText(InvoiceEditor.Member(data.fields, "client_id")).None?
              || InvoiceEditor.TextOf(InvoiceEditor.Member(data.fields, "status")).None?
              || InvoiceEditor.ItemsOf(InvoiceEditor.Member(data.fields, "items")).None?
    ensures r.Some? ==> data.JObj? && "client_id" in data.fields && data.fields["client_id"] != JNull
    ensures r.Some? ==> Some(r.value.items) == InvoiceEditor.ItemsOf(InvoiceEditor.Member(data.fields, "items"))
    ensures r.Some? ==> Some(r.value.dueDate) == day(InvoiceEditor.Member(data.fields, "due_date"))
  {
    if !data.JObj? then None
    else
      var o := data.fields;
      var client := ClientIdText(InvoiceEditor.Member(o, "client_id"));
      var status := InvoiceEditor.TextOf(InvoiceEditor.Member(o, "status"));
      var due := day(InvoiceEditor.Member(o, "due_date"));
      var items := InvoiceEditor.ItemsOf(InvoiceEditor.Member(o, "items"));
      if client.None? || status.None? || due.None? || items.None? then None
      else Some(Form(client.value, status.value, due.value, items.value))
  }

  /** The members of the saved payload. */
  lemma PayloadMembers(f: Form<Line>)
    ensures InvoiceEditor.Member(Payload(f), "client_id") == Some(InvoiceEditor.ClientIdJson(f.clientId))
    ensures InvoiceEditor.Member(Payload(f), "items") == Some(JArr(LinesJson(f.items)))
    ensures InvoiceEditor.Member(Payload(f), "status") == Some(JStr(f.status))
    ensures InvoiceEditor.Member(Payload(f), "due_date") == Some(JStr(f.dueDate))
  {
  }

  /** A payload whose members hold a form's values opens as that form once the server has added its id, whatever that id is. */
  lemma LoadedMembers(p: map<string, Json>, id: Json, f: Form<Line>, client: int, day: Option<Json> -> Option<string>)
    requires f.clientId == Text.IntToString(client)
    requires InvoiceEditor.Member(p, "client_id") == Some(JNum(client as real))
    requires InvoiceEditor.Member(p, "status") == Some(JStr(f.status))
    requires day(InvoiceEditor.Member(p, "due_date")) == Some(f.dueDate)
    requires InvoiceEditor.ItemsOf(InvoiceEditor.Member(p, "items")) == Some(f.items)
    ensures Loaded(JObj(p["id" := id]), day) == Some(f)
  {
    var o := p["id" := id];
    forall k | k != "id" ensures InvoiceEditor.Member(o, k) == InvoiceEditor.Member(p, k) {
    }
    assert (client as real).Floor == client;
  }

  /** A saved invoice with a chosen client, echoed back with any id added, opens as the same form. */
  lemma SaveThenLoad(f: Form<Line>, client: int, id: Json, day: Option<Json> -> Option<string>)
    requires f.clientId == Text.IntToString(client)
    requires day(Some(JStr(f.dueDate))) == Some(f.dueDate)
    ensures Loaded(JObj(Payload(f)["id" := id]), day) == Some(f)
  {
    PayloadReadable(f, client, day);
    LoadedMembers(Payload(f), id, f, client, day);
  }

  /** The saved payload's members read back as the form's values. */
  lemma PayloadReadable(f: Form<Line>, client: int, day: Option<Json> -> Option<string>)
    requires f.clientId == Text.IntToString(client)
    requires day(Some(JStr(f.dueDate))) == Some(f.dueDate)
    ensures InvoiceEditor.Member(Payload(f), "client_id") == Some(JNum(client as real))
    ensures InvoiceEditor.Member(Payload(f), "status") == Some(JStr(f.status))
    ensures day(InvoiceEditor.Member(Payload(f), "due_date")) == Some(f.dueDate)
    ensures InvoiceEditor.ItemsOf(InvoiceEditor.Member(Payload(f), "items")) == Some(f.items)
  {
    PayloadMembers(f);
    Text.ParseIntOfString(client);
    LinesRoundTrip(f.items);
  }
}
