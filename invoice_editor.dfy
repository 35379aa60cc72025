/**
 * src/pages/InvoiceEditor.tsx: the invoice and estimate editor. It holds a
 * form (client, status, dates, line items, notes and terms), loads it from
 * the document being edited, and saves it as one payload whose total is
 * computed from the items.
 */
module InvoiceEditor {
  import opened Wrappers
  import Text
  import Calendar
  import opened LineItems
  import opened MockApi

  const DayMs: int := 24 * 60 * 60 * 1000

  /** The editor's form. `I` is an item object in the page's state and a `Line` value once read. */
  datatype Form<I> = Form(clientId: string, status: string, dueDate: string, issueDate: string,
                          items: seq<I>, notes: string, terms: string)

  /** The values the form's item objects hold now. */
  function Values(f: Form<Item>): Form<Line>
    reads set x | x in f.items
  {
    Form(f.clientId, f.status, f.dueDate, f.issueDate, Lines(f.items), f.notes, f.terms)
  }

  /** `new Date(ms).toISOString().split('T')[0]`: the UTC day of an instant. */
  function DayOf(ms: int): string
  {
    Calendar.IsoDate(ms / DayMs)
  }

  /** The due date a new form starts with. */
  function DefaultDueDate(isEstimate: bool, nowMs: int): string
  {
    DayOf(nowMs + (if isEstimate then 30 else 7) * DayMs)
  }

  /** A new estimate is due 30 days after today, a new invoice 7 days after today. */
  lemma DueDateOffset(isEstimate: bool, nowMs: int)
    ensures DefaultDueDate(isEstimate, nowMs) == Calendar.IsoDate(nowMs / DayMs + (if isEstimate then 30 else 7))
  {
    var k := if isEstimate then 30 else 7;
    assert (nowMs + k * DayMs) / DayMs == nowMs / DayMs + k;
  }

  /** The form a new document starts with. */
  function InitialForm<I>(isEstimate: bool, nowMs: int): Form<I>
  {
    Form("", "draft", DefaultDueDate(isEstimate, nowMs), DayOf(nowMs), [], "", "")
  }

  function Endpoint(isEstimate: bool): string
  {
    if isEstimate then "/estimates" else "/invoices"
  }

  /** `parseInt(client_id)` as `JSON.stringify` sends it: NaN becomes null. */
  function ClientIdJson(s: string): (j: Json)
    ensures Text.ParseInt(s).None? <==> j == JNull
    ensures Text.ParseInt(s).Some? ==> j == JNum(Text.ParseInt(s).value as real)
  {
    var n := Text.ParseInt(s);
    if n.None? then JNull else JNum(n.value as real)
  }

  /** The payload's object, given the values computed from the form. */
  function PayloadObject(f: Form<Line>, client: Json, items: Json, total: real, isEstimate: bool): (p: map<string, Json>)
    ensures "total" in p && p["total"] == JNum(total)
    ensures "client_id" in p && p["client_id"] == client
    ensures "items" in p && p["items"] == items
    ensures "due_date" in p && p["due_date"] == JStr(f.dueDate)
    ensures "issue_date" in p && p["issue_date"] == JStr(f.issueDate)
    ensures "status" in p && p["status"] == JStr(f.status)
    ensures "notes" in p && p["notes"] == JStr(f.notes) && "terms" in p && p["terms"] == JStr(f.terms)
    ensures "expiry_date" in p <==> isEstimate
    ensures isEstimate ==> p["expiry_date"] == JStr(f.dueDate)
  {
    var base := map["client_id" := client, "status" := JStr(f.status), "due_date" := JStr(f.dueDate),
                    "issue_date" := JStr(f.issueDate), "items" := items, "notes" := JStr(f.notes),
                    "terms" := JStr(f.terms), "total" := JNum(total)];
    if isEstimate then base["expiry_date" := JStr(f.dueDate)] else base
  }

  /**
   * The saved payload: the form's fields, the client id as a number, the total
   * of the items, and the due date also under `expiry_date` for an estimate.
   */
  function Payload(f: Form<Line>, isEstimate: bool): (p: map<string, Json>)
    ensures "total" in p && p["total"] == JNum(Total(f.items))
    ensures "client_id" in p && p["client_id"] == ClientIdJson(f.clientId)
    ensures "items" in p && p["items"] == JArr(LinesJson(f.items))
    ensures "due_date" in p && p["due_date"] == JStr(f.dueDate)
    ensures "expiry_date" in p <==> isEstimate
    ensures isEstimate ==> p["expiry_date"] == JStr(f.dueDate)
  {
    PayloadObject(f, ClientIdJson(f.clientId), JArr(LinesJson(f.items)), Total(f.items), isEstimate)
  }

  datatype Verb = Put | Post

  /** A call the page makes through the API client. */
  datatype Request = Request(verb: Verb, path: string, body: map<string, Json>)

  /**
   * `handleSave`: nothing is sent without a client; otherwise the payload is
   * PUT to the document when editing one (a route `id` is present) and POSTed
   * to the collection otherwise.
   */
  function Save(f: Form<Line>, isEstimate: bool, id: Option<string>): (r: Option<Request>)
    ensures r.None? <==> f.clientId == ""
    ensures r.Some? ==> r.value.body == Payload(f, isEstimate)
    ensures r.Some? && TruthyText(id) ==> r.value.verb == Put && r.value.path == Endpoint(isEstimate) + "/" + id.value
    ensures r.Some? && !TruthyText(id) ==> r.value.verb == Post && r.value.path == Endpoint(isEstimate)
  {
    if f.clientId == "" then None
    else if TruthyText(id) then Some(Request(Put, Endpoint(isEstimate) + "/" + id.value, Payload(f, isEstimate)))
    else Some(Request(Post, Endpoint(isEstimate), Payload(f, isEstimate)))
  }

  // ---------------------------------------------------------------------------
  // Loading a document.

  /** `o[k]`, `None` when the key is missing (`undefined`). */
  function Member(o: map<string, Json>, k: string): Option<Json>
  {
    if k in o then Some(o[k]) else None
  }

  /** `x?.toString() || ''` for a client id: `None` for a value the model does not render. */
  function ClientIdText(x: Option<Json>): (r: Option<string>)
    ensures x.None? || x == Some(JNull) ==> r == Some("")
    ensures x.Some? && x.value.JNum? && x.value.n == x.value.n.Floor as real ==> r == Some(Text.IntToString(x.value.n.Floor))
  {
    if x.None? || x.value.JNull? then Some("")
    else if x.value.JNum? && x.value.n == x.value.n.Floor as real then Some(Text.IntToString(x.value.n.Floor))
    else if x.value.JStr? then Some(x.value.s)
    else None
  }

  /** `x || ''` for a text field. */
  function TextOrEmpty(x: Option<Json>): (r: Option<string>)
    ensures x.None? || !Truthy(x.value) ==> r == Some("")
    ensures x.Some? && x.value.JStr? ==> r == Some(x.value.s)
  {
    if x.None? || !Truthy(x.value) then Some("")
    else if x.value.JStr? then Some(x.value.s)
    else None
  }

  /** A text field read as it is. */
  function TextOf(x: Option<Json>): Option<string>
  {
    if x.Some? && x.value.JStr? then Some(x.value.s) else None
  }

  /** The items of a document, when `data.items` is an array whose items can be read. */
  function ItemsOf(x: Option<Json>): Option<seq<Line>>
  {
    if x.Some? && x.value.JArr? then LinesOf(x.value.elems) else None
  }

  /** `data.expiry_date || data.due_date`: the estimate's expiry date when set. */
  function DueSource(o: map<string, Json>): Option<Json>
  {
    if "expiry_date" in o && Truthy(o["expiry_date"]) then Some(o["expiry_date"]) else Member(o, "due_date")
  }

  /** `x.map` exists: `x` is an array. */
  predicate IsArray(x: Option<Json>)
  {
    x.Some? && x.value.JArr?
  }

  /**
   * Where `fetchDocument` throws and the page goes back to the list: an
   * answer that is not an object, a date `toISOString` refuses, or items
   * that are not an array.
   */
  predicate LoadThrows(data: Json, day: Option<Json> -> Option<string>)
  {
    !data.JObj? || day(DueSource(data.fields)).None? || day(Member(data.fields, "issue_date")).None?
    || !IsArray(Member(data.fields, "items"))
  }

  /**
   * `fetchDocument`: the form shown for a loaded document. The due date is the
   * estimate's `expiry_date` when set, else `due_date`; `day` is
   * `new Date(x).toISOString().split('T')[0]` (`None` where it throws). `None`
   * is a load that throws, or one that holds a client id, status, item, notes
   * or terms of a JSON type the model does not render.
   */
  function Loaded(data: Json, day: Option<Json> -> Option<string>): (r: Option<Form<Line>>)
    ensures LoadThrows(data, day) ==> r.None?
    ensures !LoadThrows(data, day) && r.None? ==>
              ClientIdText(Member(data.fields, "client_id")).None? || TextOf(Member(data.fields, "status")).None?
              || ItemsOf(Member(data.fields, "items")).None?
              || TextOrEmpty(Member(data.fields, "notes")).None? || TextOrEmpty(Member(data.fields, "terms")).None?
    ensures r.Some? ==> data.JObj? && Some(r.value.items) == ItemsOf(Member(data.fields, "items"))
    ensures r.Some? ==> Some(r.value.dueDate) == day(DueSource(data.fields))
    ensures r.Some? ==> Some(r.value.notes) == TextOrEmpty(Member(data.fields, "notes"))
                        && Some(r.value.terms) == TextOrEmpty(Member(data.fields, "terms"))
  {
    if !data.JObj? then None
    else
      var o := data.fields;
      var client := ClientIdText(Member(o, "client_id"));
      var status := TextOf(Member(o, "status"));
      var due := day(DueSource(o));
      var issue := day(Member(o, "issue_date"));
      var items := ItemsOf(Member(o, "items"));
      var notes := TextOrEmpty(Member(o, "notes"));
      var terms := TextOrEmpty(Member(o, "terms"));
      if client.None? || status.None? || due.None? || issue.None? || items.None? || notes.None? || terms.None? then None
      else Some(Form(client.value, status.value, due.value, issue.value, items.value, notes.value, terms.value))
  }

  /** The `{ error: 'Not found' }` a demo lookup answers for a missing id cannot be shown. */
  lemma NotFoundIsNotLoaded(day: Option<Json> -> Option<string>)
    ensures Loaded(NotFound, day).None?
  {
  }

  /** A document whose fields each read as the form's reads as that form. */
  lemma LoadedFields(o: map<string, Json>, day: Option<Json> -> Option<string>, f: Form<Line>)
    requires ClientIdText(Member(o, "client_id")) == Some(f.clientId) && TextOf(Member(o, "status")) == Some(f.status)
    requires day(if "expiry_date" in o && Truthy(o["expiry_date"]) then Some(o["expiry_date"]) else Member(o, "due_date")) == Some(f.dueDate)
    requires day(Member(o, "issue_date")) == Some(f.issueDate) && ItemsOf(Member(o, "items")) == Some(f.items)
    requires TextOrEmpty(Member(o, "notes")) == Some(f.notes) && TextOrEmpty(Member(o, "terms")) == Some(f.terms)
    ensures Loaded(JObj(o), day) == Some(f)
  {
  }

  /**
   * What the demo store keeps for a saved form opens as the same form, given
   * dates the date conversion leaves alone and a client chosen from the list
   * (whose ids are integers).
   */
  lemma SaveThenLoad(f: Form<Line>, client: int, isEstimate: bool, nowMs: nat, day: Option<Json> -> Option<string>)
    requires f.clientId == Text.IntToString(client)
    requires day(Some(JStr(f.dueDate))) == Some(f.dueDate) && day(Some(JStr(f.issueDate))) == Some(f.issueDate)
    ensures Loaded(Posted(Payload(f, isEstimate), nowMs), day) == Some(f)
  {
    var clientJson, items := ClientIdJson(f.clientId), JArr(LinesJson(f.items));
    var o := PayloadObject(f, clientJson, items, Total(f.items), isEstimate)["id" := JNum(nowMs as real)];
    StoredMembers(f, clientJson, items, Total(f.items), isEstimate, nowMs as real, o);
    ClientIdReadBack(client);
    LinesRoundTrip(f.items);
    LoadedFields(o, day, f);
  }

  /** The fields of a stored payload, under the id the store adds. */
  lemma StoredMembers(f: Form<Line>, client: Json, items: Json, total: real, isEstimate: bool, id: real, o: map<string, Json>)
    requires o == PayloadObject(f, client, items, total, isEstimate)["id" := JNum(id)]
    ensures Member(o, "client_id") == Some(client) && Member(o, "items") == Some(items)
    ensures Member(o, "status") == Some(JStr(f.status)) && Member(o, "issue_date") == Some(JStr(f.issueDate))
    ensures Member(o, "due_date") == Some(JStr(f.dueDate))
    ensures isEstimate ==> Member(o, "expiry_date") == Some(JStr(f.dueDate))
    ensures !isEstimate ==> Member(o, "expiry_date") == None
    ensures Member(o, "notes") == Some(JStr(f.notes)) && Member(o, "terms") == Some(JStr(f.terms))
  {
  }

  /** A client id sent as a number renders back as the same text. */
  lemma ClientIdReadBack(client: int)
    ensures ClientIdText(Some(ClientIdJson(Text.IntToString(client)))) == Some(Text.IntToString(client))
  {
    Text.ParseIntOfString(client);
    assert (client as real).Floor == client;
  }

  /** The demo store keeps the total the editor computed. */
  lemma SavedTotalIsKept(f: Form<Line>, isEstimate: bool, nowMs: nat)
    ensures Posted(Payload(f, isEstimate), nowMs).fields["total"] == JNum(Total(f.items))
  {
  }
}
