/**
 * src/pages/Estimates.tsx: the list of estimates, its search and status
 * filter, the actions each row offers, and conversion into an invoice.
 */
module EstimatesPage {
  import opened Wrappers
  import Text
  import Grouping
  import Search
  import opened MockApi
  import InvoiceEditor
  import NodeDb
  import NodeEstimates

  /** A listed estimate, as the page reads it. */
  datatype Row = Row(id: int, clientName: Option<string>, number: Option<string>, status: Option<string>)

  /** `text?.toLowerCase().includes(search.toLowerCase())`: a missing text matches nothing. */
  predicate Mentions(text: Option<string>, search: string)
  {
    text.Some? && Search.Mentions(text.value, search)
  }

  /** An empty search matches every row; otherwise the client's name or the number must contain it, ignoring case. */
  predicate MatchesSearch(e: Row, search: string)
  {
    search == "" || Mentions(e.clientName, search) || Mentions(e.number, search)
  }

  /** An empty status filter matches every row; otherwise the status must equal it. */
  predicate MatchesStatus(e: Row, statusFilter: string)
  {
    statusFilter == "" || e.status == Some(statusFilter)
  }

  predicate Matches(e: Row, search: string, statusFilter: string)
  {
    MatchesSearch(e, search) && MatchesStatus(e, statusFilter)
  }

  /** `filteredEstimates`: the rows passing both tests, in the order loaded. */
  function Shown(rows: seq<Row>, search: string, statusFilter: string): (r: seq<Row>)
    ensures forall e :: e in r <==> e in rows && MatchesSearch(e, search) && MatchesStatus(e, statusFilter)
  {
    Grouping.Where(rows, e => Matches(e, search, statusFilter))
  }

  /** With no search and no status chosen, the page lists every estimate in order. */
  lemma NoFilterShowsAll(rows: seq<Row>)
    ensures Shown(rows, "", "") == rows
  {
    Grouping.WhereAll(rows, e => Matches(e, "", ""));
  }

  /** The filter keeps the loaded order: filtering two runs of rows filters each. */
  lemma ShownKeepsOrder(a: seq<Row>, b: seq<Row>, search: string, statusFilter: string)
    ensures Shown(a + b, search, statusFilter) == Shown(a, search, statusFilter) + Shown(b, search, statusFilter)
  {
    Grouping.WhereAppend(a, b, e => Matches(e, search, statusFilter));
  }

  /** The search ignores case: typing it in lower case shows the same rows. */
  lemma SearchIgnoresCase(rows: seq<Row>, search: string, statusFilter: string)
    ensures Shown(rows, Text.ToLower(search), statusFilter) == Shown(rows, search, statusFilter)
  {
    Text.ToLowerIdempotent(search);
    assert Text.ToLower(search) == "" <==> search == "";
    Grouping.WhereSame(rows, e => Matches(e, Text.ToLower(search), statusFilter), e => Matches(e, search, statusFilter));
  }

  /** What a row offers. */
  datatype Action = Edit | Convert | Delete | ConvertedNote

  /**
   * A converted estimate only says so; any other offers Edit and Delete, and
   * an accepted one also Convert.
   */
  function Actions(status: Option<string>): (r: set<Action>)
    ensures ConvertedNote in r <==> status == Some(NodeEstimates.Converted)
    ensures Edit in r <==> status != Some(NodeEstimates.Converted)
    ensures Delete in r <==> Edit in r
    ensures Convert in r <==> status == Some("accepted")
  {
    if status == Some(NodeEstimates.Converted) then {ConvertedNote}
    else if status == Some("accepted") then {Edit, Convert, Delete}
    else {Edit, Delete}
  }

  /**
   * The page offers Edit on exactly the estimates the server lets the owner
   * update, and Convert only on ones it lets the owner convert.
   */
  lemma ActionsMatchServer(db: NodeDb.NodeDatabase, user: int, id: int)
    requires NodeEstimates.Owns(db, user, id)
    ensures Edit in Actions(db.estimates[id].status) <==> NodeEstimates.Check(db, user, id, NodeEstimates.CannotEditConverted).Ok?
    ensures Convert in Actions(db.estimates[id].status) ==> NodeEstimates.Check(db, user, id, NodeEstimates.AlreadyConverted).Ok?
  {
  }

  const ConvertedNotice: string := "Estimate successfully converted to invoice!"
  const ConvertFailedNotice: string := "Failed to convert estimate"

  /** `handleConvert`: nothing unless confirmed; then a POST to the estimate's convert path with an empty body. */
  function ConvertRequest(id: int, confirmed: bool): (r: Option<InvoiceEditor.Request>)
    ensures r.Some? <==> confirmed
    ensures r.Some? ==> r.value.verb == InvoiceEditor.Post && r.value.body == map[]
                        && r.value.path == "/estimates/" + Text.IntToString(id) + "/convert"
  {
    if confirmed then Some(InvoiceEditor.Request(InvoiceEditor.Post, "/estimates/" + Text.IntToString(id) + "/convert", map[])) else None
  }

  /**
   * The alert after the convert call: success when it returns; when it throws,
   * `err.response?.data?.error` is undefined for the error `api` throws, so the
   * fixed text.
   */
  function ConvertNotice(reply: Reply): (r: string)
    ensures r == ConvertedNotice <==> reply.Value?
    ensures reply.Thrown? ==> r == ConvertFailedNotice
  {
    if reply.Value? then ConvertedNotice else ConvertFailedNotice
  }

  /**
   * As written, `post` swallows the server's refusal: converting an estimate
   * the server reports as already converted still tells the user it was
   * converted.
   */
  lemma RefusedConversionReportsSuccess(id: int, nowMs: nat)
    ensures var net := Answered(400, JObj(map["error" := JStr(NodeEstimates.AlreadyConverted)]));
            var path := ConvertRequest(id, true).value.path;
            ConvertNotice(Value(ServerPost(path, map[], nowMs, net))) == ConvertedNotice
  {
  }

  /** With the checked `post`, the notice says converted exactly when the server converted it or could not be reached. */
  lemma RefusedConversionReported(id: int, nowMs: nat, net: Net)
    ensures var path := ConvertRequest(id, true).value.path;
            ConvertNotice(CheckedPost(path, map[], nowMs, net)) == ConvertedNotice <==> Succeeded(net) || net.Unreachable?
  {
  }
  /** `e => e.id !== id`: the rows a delete of `id` keeps. */
  function OtherThan(id: int): Row -> bool
  {
    (e: Row) => e.id != id
  }

  /**
   * `handleDelete`: the estimates listed afterwards. Nothing happens unless
   * the user confirms; a delete that throws only raises the alert and keeps
   * the list; otherwise the rows with the id go and the others stay in order.
   */
  function AfterDelete(rows: seq<Row>, id: int, confirmed: bool, reply: Reply): (r: seq<Row>)
    ensures !confirmed || reply.Thrown? ==> r == rows
    ensures confirmed && reply.Value? ==> forall e :: e in r <==> e in rows && e.id != id
  {
    if !confirmed || reply.Thrown? then rows else Grouping.Where(rows, OtherThan(id))
  }

  /**
   * A confirmed, answered delete removes only the deleted estimate: with the
   * id listed once, between `before` and `after`, the page lists
   * `before + after`.
   */
  lemma DeleteRemovesOne(before: seq<Row>, row: Row, after: seq<Row>, id: int, reply: Reply)
    requires reply.Value? && row.id == id
    requires forall e :: e in before ==> e.id != id
    requires forall e :: e in after ==> e.id != id
    ensures AfterDelete(before + [row] + after, id, true, reply) == before + after
  {
    var rest := [row] + after;
    assert before + [row] + after == before + rest;
    Grouping.WhereAppend(before, rest, OtherThan(id));
    Grouping.WhereAll(before, OtherThan(id));
    DropsMatch(row, after, id);
  }

  /** The filter drops a leading row with the id and keeps the rows after it that lack it. */
  lemma DropsMatch(row: Row, after: seq<Row>, id: int)
    requires row.id == id
    requires forall e :: e in after ==> e.id != id
    ensures Grouping.Where([row] + after, OtherThan(id)) == after
  {
    var s := [row] + after;
    assert s[0] == row && s[1..] == after;
    assert !OtherThan(id)(row);
    Grouping.WhereAll(after, OtherThan(id));
  }
}
