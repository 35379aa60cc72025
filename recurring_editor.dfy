/**
 * src/pages/RecurringInvoiceEditor.tsx (micro/src/pages/RecurringInvoiceEditor.tsx
 * holds the same logic): the editor of a recurring-invoice profile. Its line
 * items behave as in the invoice editor; the profile is saved with a total
 * computed from the items and a fixed `user_id` of 1.
 */
module RecurringEditor {
  import opened Wrappers
  import Text
  import opened LineItems
  import opened MockApi
  import InvoiceEditor
  import MicroInvoiceEditor

  /** The profile form. `intervalCount` is `None` when the count input held no number (NaN). */
  datatype Form<I> = Form(clientId: string, interval: string, intervalCount: Option<int>, startDate: string,
                          endDate: string, status: string, sendAutomatically: bool, items: seq<I>)

  function Values(f: Form<Item>): Form<Line>
    reads set x | x in f.items
  {
    Form(f.clientId, f.interval, f.intervalCount, f.startDate, f.endDate, f.status, f.sendAutomatically, Lines(f.items))
  }

  /** A new profile: monthly, every 1, active, not sent automatically, starting today, no end, no items. */
  function InitialForm<I>(nowMs: int): (f: Form<I>)
    ensures f.clientId == "" && f.interval == "month" && f.intervalCount == Some(1) && f.status == "active"
    ensures !f.sendAutomatically && f.items == [] && f.endDate == "" && f.startDate == InvoiceEditor.DayOf(nowMs)
  {
    Form("", "month", Some(1), InvoiceEditor.DayOf(nowMs), "", "active", false, [])
  }

  /** The count input: `parseInt(value)`. */
  function CountInput(value: string): Option<int>
  {
    Text.ParseInt(value)
  }

  function CountJson(c: Option<int>): Json
  {
    if c.None? then JNull else JNum(c.value as real)
  }

  function PayloadObject(f: Form<Line>, client: Json, items: Json, total: real): (p: map<string, Json>)
    ensures "client_id" in p && p["client_id"] == client && "items" in p && p["items"] == items
    ensures "total" in p && p["total"] == JNum(total) && "user_id" in p && p["user_id"] == JNum(1.0)
    ensures "interval" in p && p["interval"] == JStr(f.interval) && "interval_count" in p && p["interval_count"] == CountJson(f.intervalCount)
    ensures "start_date" in p && p["start_date"] == JStr(f.startDate) && "end_date" in p && p["end_date"] == JStr(f.endDate)
    ensures "status" in p && p["status"] == JStr(f.status) && "send_automatically" in p && p["send_automatically"] == JBool(f.sendAutomatically)
  {
    map["client_id" := client, "interval" := JStr(f.interval), "interval_count" := CountJson(f.intervalCount),
        "start_date" := JStr(f.startDate), "end_date" := JStr(f.endDate), "status" := JStr(f.status),
        "send_automatically" := JBool(f.sendAutomatically), "items" := items, "total" := JNum(total), "user_id" := JNum(1.0)]
  }

  /** The saved payload: the form, the client id as a number, the items' total and user 1. */
  function Payload(f: Form<Line>): (p: map<string, Json>)
    ensures "client_id" in p && p["client_id"] == InvoiceEditor.ClientIdJson(f.clientId)
    ensures "total" in p && p["total"] == JNum(Total(f.items))
    ensures "user_id" in p && p["user_id"] == JNum(1.0)
  {
    PayloadObject(f, InvoiceEditor.ClientIdJson(f.clientId), JArr(LinesJson(f.items)), Total(f.items))
  }

  /** `handleSave`: nothing without a client; otherwise PUT to the profile when editing one, POST otherwise. */
  function Save(f: Form<Line>, id: Option<string>): (r: Option<InvoiceEditor.Request>)
    ensures r.None? <==> f.clientId == ""
    ensures r.Some? ==> r.value.body == Payload(f)
    ensures r.Some? && TruthyText(id) ==> r.value.verb == InvoiceEditor.Put && r.value.path == "/recurring/" + id.value
    ensures r.Some? && !TruthyText(id) ==> r.value.verb == InvoiceEditor.Post && r.value.path == "/recurring"
  {
    if f.clientId == "" then None
    else if TruthyText(id) then Some(InvoiceEditor.Request(InvoiceEditor.Put, "/recurring/" + id.value, Payload(f)))
    else Some(InvoiceEditor.Request(InvoiceEditor.Post, "/recurring", Payload(f)))
  }

  /** A count as loaded: an integral number. */
  function CountOf(x: Option<Json>): Option<Option<int>>
  {
    if x.Some? && x.value.JNum? && x.value.n == x.value.n.Floor as real then Some(Some(x.value.n.Floor)) else None
  }

  function FlagOf(x: Option<Json>): Option<bool>
  {
    if x.Some? && x.value.JBool? then Some(x.value.b) else None
  }

  /** `end_date ? <its day> : ''`. */
  function EndDateOf(x: Option<Json>, day: Option<Json> -> Option<string>): (r: Option<string>)
    ensures x.None? || !Truthy(x.value) ==> r == Some("")
    ensures x.Some? && Truthy(x.value) ==> r == day(x)
  {
    if x.None? || !Truthy(x.value) then Some("") else day(x)
  }

  /**
   * Where `fetchProfile` throws and the page goes back to the list: an answer
   * that is not an object, a missing or null `client_id`, a start date or a
   * set end date `toISOString` refuses, or items that are not an array.
   */
  predicate LoadThrows(data: Json, day: Option<Json> -> Option<string>)
  {
    !data.JObj? || "client_id" !in data.fields || data.fields["client_id"] == JNull
    || day(InvoiceEditor.Member(data.fields, "start_date")).None?
    || EndDateOf(InvoiceEditor.Member(data.fields, "end_date"), day).None?
    || !InvoiceEditor.IsArray(InvoiceEditor.Member(data.fields, "items"))
  }

  /**
   * `fetchProfile`: the form shown for a loaded profile, with its dates as
   * `YYYY-MM-DD` and no end date when it has none; `None` where the load
   * throws, or where it holds a client id, interval, count, status, flag or
   * item of a JSON type the model does not render.
   */
  function Loaded(data: Json, day: Option<Json> -> Option<string>): (r: Option<Form<Line>>)
    ensures LoadThrows(data, day) ==> r.None?
    ensures !LoadThrows(data, day) && r.None? ==>
              MicroInvoiceEditor.ClientIdText(InvoiceEditor.Member(data.fields, "client_id")).None?
              || InvoiceEditor.TextOf(InvoiceEditor.Member(data.fields, "interval")).None?
              || CountOf(InvoiceEditor.Member(data.fields, "interval_count")).None?
              || InvoiceEditor.TextOf(InvoiceEditor.Member(data.fields, "status")).None?
              || FlagOf(InvoiceEditor.Member(data.fields, "send_automatically")).None?
              || InvoiceEditor.ItemsOf(InvoiceEditor.Member(data.fields, "items")).None?
    ensures r.Some? ==> data.JObj? && "client_id" in data.fields && data.fields["client_id"] != JNull
    ensures r.Some? ==> Some(r.value.startDate) == day(InvoiceEditor.Member(data.fields, "start_date"))
    ensures r.Some? ==> Some(r.value.endDate) == EndDateOf(InvoiceEditor.Member(data.fields, "end_date"), day)
    ensures r.Some? ==> Some(r.value.items) == InvoiceEditor.ItemsOf(InvoiceEditor.Member(data.fields, "items"))
  {
    if !data.JObj? then None
    else
      var o := data.fields;
      var client := MicroInvoiceEditor.ClientIdText(InvoiceEditor.Member(o, "client_id"));
      var interval := InvoiceEditor.TextOf(InvoiceEditor.Member(o, "interval"));
      var count := CountOf(InvoiceEditor.Member(o, "interval_count"));
      var start := day(InvoiceEditor.Member(o, "start_date"));
      var end := EndDateOf(InvoiceEditor.Member(o, "end_date"), day);
      var status := InvoiceEditor.TextOf(InvoiceEditor.Member(o, "status"));
      var flag := FlagOf(InvoiceEditor.Member(o, "send_automatically"));
      var items := InvoiceEditor.ItemsOf(InvoiceEditor.Member(o, "items"));
      if client.None? || interval.None? || count.None? || start.None? || end.None? || status.None? || flag.None? || items.None? then None
      else Some(Form(client.value, interval.value, count.value, start.value, end.value, status.value, flag.value, items.value))
  }

  /** The members of the saved payload. */
  lemma PayloadMembers(f: Form<Line>)
    ensures InvoiceEditor.Member(Payload(f), "client_id") == Some(InvoiceEditor.ClientIdJson(f.clientId))
    ensures InvoiceEditor.Member(Payload(f), "items") == Some(JArr(LinesJson(f.items)))
    ensures InvoiceEditor.Member(Payload(f), "interval") == Some(JStr(f.interval))
    ensures InvoiceEditor.Member(Payload(f), "interval_count") == Some(CountJson(f.intervalCount))
    ensures InvoiceEditor.Member(Payload(f), "start_date") == Some(JStr(f.startDate))
    ensures InvoiceEditor.Member(Payload(f), "end_date") == Some(JStr(f.endDate))
    ensures InvoiceEditor.Member(Payload(f), "status") == Some(JStr(f.status))
    ensures InvoiceEditor.Member(Payload(f), "send_automatically") == Some(JBool(f.sendAutomatically))
  {
  }

  /** A payload whose members hold a form's values opens as that form once the demo store has given it an id. */
  lemma LoadedMembers(p: map<string, Json>, nowMs: nat, f: Form<Line>, client: int, day: Option<Json> -> Option<string>)
    requires f.clientId == Text.IntToString(client) && f.intervalCount.Some?
    requires InvoiceEditor.Member(p, "client_id") == Some(JNum(client as real))
    requires InvoiceEditor.Member(p, "interval") == Some(JStr(f.interval))
    requires InvoiceEditor.Member(p, "interval_count") == Some(CountJson(f.intervalCount))
    requires InvoiceEditor.Member(p, "status") == Some(JStr(f.status))
    requires InvoiceEditor.Member(p, "send_automatically") == Some(JBool(f.sendAutomatically))
    requires day(InvoiceEditor.Member(p, "start_date")) == Some(f.startDate)
    requires EndDateOf(InvoiceEditor.Member(p, "end_date"), day) == Some(f.endDate)
    requires InvoiceEditor.ItemsOf(InvoiceEditor.Member(p, "items")) == Some(f.items)
    ensures Loaded(Posted(p, nowMs), day) == Some(f)
  {
    var o := Posted(p, nowMs).fields;
    assert o == p["id" := JNum(nowMs as real)];
    forall k | k != "id" ensures InvoiceEditor.Member(o, k) == InvoiceEditor.Member(p, k) {
    }
    assert (client as real).Floor == client;
    assert (f.intervalCount.value as real).Floor == f.intervalCount.value;
  }

  /**
   * A saved profile with a chosen client and a count, kept by the demo store,
   * opens as the same form, given dates the date conversion leaves alone.
   */
  lemma SaveThenLoad(f: Form<Line>, client: int, nowMs: nat, day: Option<Json> -> Option<string>)
    requires f.clientId == Text.IntToString(client) && f.intervalCount.Some?
    requires day(Some(JStr(f.startDate))) == Some(f.startDate)
    requires f.endDate != "" ==> day(Some(JStr(f.endDate))) == Some(f.endDate)
    ensures Loaded(Posted(Payload(f), nowMs), day) == Some(f)
  {
    PayloadReadable(f, client, day);
    LoadedMembers(Payload(f), nowMs, f, client, day);
  }

  /** The saved payload's members read back as the form's values. */
  lemma PayloadReadable(f: Form<Line>, client: int, day: Option<Json> -> Option<string>)
    requires f.clientId == Text.IntToString(client)
    requires day(Some(JStr(f.startDate))) == Some(f.startDate)
    requires f.endDate != "" ==> day(Some(JStr(f.endDate))) == Some(f.endDate)
    ensures InvoiceEditor.Member(Payload(f), "client_id") == Some(JNum(client as real))
    ensures InvoiceEditor.Member(Payload(f), "interval") == Some(JStr(f.interval))
    ensures InvoiceEditor.Member(Payload(f), "interval_count") == Some(CountJson(f.intervalCount))
    ensures InvoiceEditor.Member(Payload(f), "status") == Some(JStr(f.status))
    ensures InvoiceEditor.Member(Payload(f), "send_automatically") == Some(JBool(f.sendAutomatically))
    ensures day(InvoiceEditor.Member(Payload(f), "start_date")) == Some(f.startDate)
    ensures EndDateOf(InvoiceEditor.Member(Payload(f), "end_date"), day) == Some(f.endDate)
    ensures InvoiceEditor.ItemsOf(InvoiceEditor.Member(Payload(f), "items")) == Some(f.items)
  {
    PayloadMembers(f);
    assert InvoiceEditor.Member(Payload(f), "client_id") == Some(JNum(client as real)) by {
      Text.ParseIntOfString(client);
    }
    assert InvoiceEditor.ItemsOf(InvoiceEditor.Member(Payload(f), "items")) == Some(f.items) by {
      LinesRoundTrip(f.items);
    }
    var end := InvoiceEditor.Member(Payload(f), "end_date");
    assert end == Some(JStr(f.endDate));
    if f.endDate == "" {
      assert !Truthy(end.value);
    } else {
      assert Truthy(end.value) && day(end) == Some(f.endDate);
    }
  }

  /** `every {count} {interval}{count > 1 ? 's' : ''}` of the summary panel; a NaN count reads 'NaN'. */
  function Summary(count: Option<int>, interval: string): (r: string)
    ensures count.Some? && count.value > 1 ==> r == "every " + Text.IntToString(count.value) + " " + interval + "s"
    ensures count.Some? && count.value <= 1 ==> r == "every " + Text.IntToString(count.value) + " " + interval
    ensures count.None? ==> r == "every NaN " + interval
  {
    var n := if count.Some? then Text.IntToString(count.value) else "NaN";
    "every " + n + " " + interval + (if count.Some? && count.value > 1 then "s" else "")
  }
}
