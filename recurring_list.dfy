/**
 * src/pages/RecurringInvoices.tsx (micro/src/pages/RecurringInvoices.tsx holds
 * the same logic): the list of recurring profiles, with its interval labels,
 * the pause/resume toggle and deletion.
 */
module RecurringList {
  import opened Wrappers
  import Text
  import opened MockApi
  import InvoiceEditor
  import RecurringEditor

  /** The last-run cell of a profile that has never run, in the main app and in the micro-frontend. */
  const PendingInitial: string := "Pending Initial"
  const Never: string := "Never"

  /** `currentStatus === 'active' ? 'paused' : 'active'`. */
  function Toggled(status: string): (r: string)
    ensures r != status
    ensures r == "paused" <==> status == "active"
    ensures r == "active" || r == "paused"
  {
    if status == "active" then "paused" else "active"
  }

  /** Pausing and resuming are each other's inverse; a completed profile is resumed, not restored. */
  lemma ToggleTwice(status: string)
    ensures status == "active" || status == "paused" ==> Toggled(Toggled(status)) == status
    ensures status != "active" && status != "paused" ==> Toggled(Toggled(status)) == "paused"
  {
  }

  /** `toggleStatus`: a PUT to the profile whose body holds the new status and nothing else. */
  function ToggleRequest(id: int, status: string): (r: InvoiceEditor.Request)
    ensures r.verb == InvoiceEditor.Put && r.path == "/recurring/" + Text.IntToString(id)
    ensures r.body.Keys == {"status"} && r.body["status"] == JStr(Toggled(status))
  {
    InvoiceEditor.Request(InvoiceEditor.Put, "/recurring/" + Text.IntToString(id), map["status" := JStr(Toggled(status))])
  }

  /**
   * In demo mode the toggle merges into the stored profile: its status flips
   * and every other field stays.
   */
  lemma ToggleInDemo(row: Json, id: int, status: string)
    requires row.JObj?
    ensures var m := Merged(row, ToggleRequest(id, status).body);
            m.fields.Keys == row.fields.Keys + {"status"} && m.fields["status"] == JStr(Toggled(status))
            && forall k :: k in row.fields && k != "status" ==> m.fields[k] == row.fields[k]
  {
  }

  /** `getIntervalLabel`: 'Every month' for a count of exactly 1, 'Every 3 months' otherwise. */
  function IntervalLabel(interval: string, count: int): (r: string)
    ensures count == 1 ==> r == "Every " + interval
    ensures count != 1 ==> r == "Every " + Text.IntToString(count) + " " + interval + "s"
  {
    if count == 1 then "Every " + interval else "Every " + Text.IntToString(count) + " " + interval + "s"
  }

  /**
   * The list label and the editor's summary agree on the plural for every
   * count of at least 1; for a count of 0 or less the list says 'months' and
   * the editor 'month'.
   */
  lemma LabelAgreesWithSummary(interval: string, count: int)
    ensures count == 1 ==> IntervalLabel(interval, count) == "Every " + interval
                           && RecurringEditor.Summary(Some(count), interval) == "every 1 " + interval
    ensures count > 1 ==> IntervalLabel(interval, count) == "Every " + Text.IntToString(count) + " " + interval + "s"
                          && RecurringEditor.Summary(Some(count), interval) == "every " + Text.IntToString(count) + " " + interval + "s"
    ensures count < 1 ==> IntervalLabel(interval, count) == "Every " + Text.IntToString(count) + " " + interval + "s"
                          && RecurringEditor.Summary(Some(count), interval) == "every " + Text.IntToString(count) + " " + interval
  {
    if count == 1 {
      assert Text.IntToString(1) == "1";
    }
  }

  /** The last-run cell: the formatted date when the profile has run, the page's placeholder otherwise. */
  function LastRunText(lastRun: Option<Json>, format: Json -> string, placeholder: string): (r: string)
    ensures lastRun.None? || !Truthy(lastRun.value) ==> r == placeholder
    ensures lastRun.Some? && Truthy(lastRun.value) ==> r == format(lastRun.value)
  {
    if lastRun.Some? && Truthy(lastRun.value) then format(lastRun.value) else placeholder
  }

  /**
   * `handleDelete`: the rows shown afterwards. Nothing happens unless the user
   * confirms; a failed delete keeps the rows; otherwise the profile's rows go.
   */
  function AfterDelete(rows: seq<Json>, id: real, confirmed: bool, reply: Reply): (r: seq<Json>)
    ensures !confirmed || reply.Thrown? ==> r == rows
    ensures confirmed && reply.Value? ==> r == Without(rows, id)
    ensures forall x :: x in r ==> x in rows
  {
    if !confirmed || reply.Thrown? then rows else Without(rows, id)
  }

  /**
   * A confirmed, answered delete takes out exactly the rows with that id and
   * keeps the others in their order: deleting from a list that has the
   * profile once, between `before` and `after`, shows `before + after`.
   */
  lemma DeleteRemovesOne(before: seq<Json>, row: Json, after: seq<Json>, id: real, reply: Reply)
    requires reply.Value? && ItemId(row) == Some(id)
    requires forall x :: x in before ==> ItemId(x) != Some(id)
    requires forall x :: x in after ==> ItemId(x) != Some(id)
    ensures AfterDelete(before + [row] + after, id, true, reply) == before + after
  {
    var rest := [row] + after;
    assert before + [row] + after == before + rest;
    WithoutAppend(before, rest, id);
    WithoutNone(before, id);
    WithoutMatch(row, after, id);
  }

  /** The filter drops a leading row that carries the id and keeps rows that do not. */
  lemma WithoutMatch(row: Json, after: seq<Json>, id: real)
    requires ItemId(row) == Some(id)
    requires forall x :: x in after ==> ItemId(x) != Some(id)
    ensures Without([row] + after, id) == after
  {
    assert ([row] + after)[1..] == after;
    WithoutNone(after, id);
  }

  lemma {:induction false} WithoutNone(rows: seq<Json>, id: real)
    requires forall x :: x in rows ==> ItemId(x) != Some(id)
    ensures Without(rows, id) == rows
  {
    if rows != [] {
      assert rows[0] in rows;
      assert forall x :: x in rows[1..] ==> x in rows;
      WithoutNone(rows[1..], id);
    }
  }
}
