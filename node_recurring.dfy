/**
 * server/routes/recurring.js: a user's recurring-invoice profiles and their
 * items. The server only stores the schedule (`next_run`, `last_run`); no
 * handler here runs it. server/index.js mounts none of the route files; the
 * paths below are the ones the pages call (`/api/recurring`).
 */
module NodeRecurring {
  import opened Wrappers
  import Tables
  import opened NodeDb
  import NodeInvoices

  const ProfileNotFound: string := "Recurring profile not found"

  predicate Owns(db: NodeDatabase, user: int, id: int)
    reads db
  {
    id in db.recurring && db.recurring[id].userId == user
  }

  /** A profile with its client's name (`LEFT JOIN clients`). */
  datatype ProfileView = ProfileView(row: NRecurring, clientName: Option<string>)

  datatype ProfileWithItems = ProfileWithItems(profile: NRecurring, items: seq<LineItem>)

  function ViewOf(db: NodeDatabase, row: NRecurring): ProfileView
    reads db
  {
    ProfileView(row, NodeInvoices.ClientColumn(NodeInvoices.JoinedClient(db, row.clientId), (x: NClient) => x.name))
  }

  function ViewsOf(db: NodeDatabase, rows: seq<NRecurring>): (views: seq<ProfileView>)
    reads db
    ensures |views| == |rows| && forall i :: 0 <= i < |rows| ==> views[i] == ViewOf(db, rows[i])
    ensures forall r :: r in rows ==> ViewOf(db, r) in views
    ensures forall v :: v in views ==> v.row in rows && v == ViewOf(db, v.row)
  {
    if rows == [] then [] else [ViewOf(db, rows[0])] + ViewsOf(db, rows[1..])
  }

  /**
   * `ORDER BY r.created_at DESC`. `createdAt` holds the day only; within a
   * day the row inserted later, which holds the higher serial id, comes first.
   */
  predicate NewestFirst(a: NRecurring, b: NRecurring)
  {
    a.createdAt > b.createdAt || (a.createdAt == b.createdAt && a.id >= b.id)
  }

  /** Any two rows compare, and the comparison is transitive. */
  lemma NewestFirstOrders(rows: seq<NRecurring>)
    ensures Tables.TotalPreorder(rows, NewestFirst)
  {
  }

  /** `GET /api/recurring`: the user's profiles and no one else's, newest first. */
  function ListProfiles(db: NodeDatabase, user: int): (views: seq<ProfileView>)
    reads db
    ensures forall v :: v in views ==> v.row in db.recurring.Values && v.row.userId == user && v == ViewOf(db, v.row)
    ensures forall id :: Owns(db, user, id) ==> ViewOf(db, db.recurring[id]) in views
    ensures forall i, j :: 0 <= i < j < |views| ==> NewestFirst(views[i].row, views[j].row)
  {
    var mine := Tables.Select(db.recurring, (r: NRecurring) => r.userId == user);
    NewestFirstOrders(mine);
    ViewsOf(db, Tables.OrderBy(mine, NewestFirst))
  }

  /** `GET /api/recurring/:id`: the user's profile with its items, or 404. */
  function GetProfile(db: NodeDatabase, user: int, id: int): (r: Outcome<ProfileWithItems>)
    reads db
    ensures r.Ok? <==> Owns(db, user, id)
    ensures r.Fail? ==> r == Fail(404, ProfileNotFound)
    ensures r.Ok? ==> r.value.profile == db.recurring[id]
    ensures r.Ok? ==> forall x :: x in r.value.items <==> x in db.recurringItems && x.parentId == id
  {
    if !Owns(db, user, id) then Fail(404, ProfileNotFound)
    else Ok(ProfileWithItems(db.recurring[id], ChildrenOf(db.recurringItems, id)))
  }

  /** The body of `POST` and `PUT`. */
  datatype ProfileInput = ProfileInput(
    clientId: Option<int>, interval: Option<string>, intervalCount: Option<int>, startDate: Option<int>,
    endDate: Option<int>, status: Option<string>, total: Option<real>, sendAutomatically: Option<bool>,
    items: Option<seq<ItemInput>>)

  function RequestItems(input: ProfileInput): seq<ItemInput>
  {
    if input.items.Some? then input.items.value else []
  }

  /**
   * The row the create handler inserts: the schedule starts at the start date
   * and has never run; interval, count, status, total and the sending flag
   * default to 'month', 1, 'active', 0 and false when falsy.
   */
  function NewProfile(id: int, user: int, input: ProfileInput, today: int): (p: NRecurring)
    ensures p.userId == user && p.nextRun == input.startDate && p.lastRun.None?
    ensures p.interval == Some(if TruthyText(input.interval) then input.interval.value else "month")
    ensures p.intervalCount == Some(if input.intervalCount.Some? && input.intervalCount.value != 0 then input.intervalCount.value else 1)
    ensures p.status == Some(if TruthyText(input.status) then input.status.value else "active")
    ensures p.total == Some(if input.total.Some? && input.total.value != 0.0 then input.total.value else 0.0)
    ensures p.sendAutomatically == Some(input.sendAutomatically == Some(true))
  {
    NRecurring(id, user, input.clientId, Some(TextOr(input.interval, "month")), Some(IntOr(input.intervalCount, 1)),
               input.startDate, input.endDate, input.startDate, None, Some(TextOr(input.status, "active")),
               Some(NumberOr(input.total, 0.0)), Some(input.sendAutomatically == Some(true)), today, today)
  }

  /** Writes a new profile and appends its items. */
  method CommitNewProfile(db: NodeDatabase, row: NRecurring, lines: seq<LineItem>, inputs: seq<ItemInput>)
    requires db.Valid() && row.id !in db.recurring
    requires LinesInOrder(lines, row.id, inputs)
    modifies db`recurring, db`recurringItems
    ensures db.Valid()
    ensures db.recurring == old(db.recurring)[row.id := row]
    ensures db.recurringItems == old(db.recurringItems) + ChildrenOf(db.recurringItems, row.id)
    ensures LinesInOrder(ChildrenOf(db.recurringItems, row.id), row.id, inputs)
  {
    LinesBelongTo(lines, row.id, inputs);
    assert forall x :: x in db.recurringItems ==> x.parentId != row.id;
    AppendedReadBack(db.recurringItems, row.id, lines, inputs);
    db.recurring := db.recurring[row.id := row];
    db.recurringItems := db.recurringItems + lines;
  }

  /**
   * `POST /api/recurring`. Statements: 0 BEGIN, 1 insert the
   * profile, 2 + k insert item k, then COMMIT. Any failure answers 500 and
   * rolls back.
   */
  method CreateProfile(db: NodeDatabase, user: int, input: ProfileInput, today: int, fault: Option<nat>)
    returns (r: Outcome<NRecurring>)
    requires db.Valid()
    modifies db`recurring, db`recurringItems
    ensures db.Valid()
    ensures Aborts(fault, |RequestItems(input)| + 3) ==>
              (r == Fail(500, DbError) && db.recurring == old(db.recurring) && db.recurringItems == old(db.recurringItems))
    ensures !Aborts(fault, |RequestItems(input)| + 3) ==>
              (r.Ok? && r.value.id !in old(db.recurring) && r.value == NewProfile(r.value.id, user, input, today)
               && db.recurring == old(db.recurring)[r.value.id := r.value]
               && db.recurringItems == old(db.recurringItems) + ChildrenOf(db.recurringItems, r.value.id)
               && LinesInOrder(ChildrenOf(db.recurringItems, r.value.id), r.value.id, RequestItems(input)))
  {
    if Aborts(fault, 2) {
      return Fail(500, DbError);
    }
    var row := NewProfile(Tables.NextId(db.recurring.Keys), user, input, today);
    var lines, aborted := InsertLines(db.recurringItems, row.id, RequestItems(input), fault, 2);
    if aborted || Aborts(fault, |RequestItems(input)| + 3) {
      return Fail(500, DbError);
    }
    CommitNewProfile(db, row, lines, RequestItems(input));
    r := Ok(row);
  }

  /** The row the update leaves: the eight body columns as sent; `next_run` and `last_run` untouched. */
  function RevisedProfile(p: NRecurring, input: ProfileInput, today: int): (q: NRecurring)
    ensures q.id == p.id && q.userId == p.userId && q.nextRun == p.nextRun && q.lastRun == p.lastRun
  {
    p.(clientId := input.clientId, interval := input.interval, intervalCount := input.intervalCount,
       startDate := input.startDate, endDate := input.endDate, status := input.status, total := input.total,
       sendAutomatically := input.sendAutomatically, updatedAt := today)
  }

  /** Writes an updated profile row and its item table. */
  method CommitProfile(db: NodeDatabase, row: NRecurring, items: seq<LineItem>)
    requires db.Valid() && row.id in db.recurring
    requires forall x :: x in items ==> x.parentId in db.recurring
    modifies db`recurring, db`recurringItems
    ensures db.Valid()
    ensures db.recurring == old(db.recurring)[row.id := row] && db.recurringItems == items
  {
    db.recurring := db.recurring[row.id := row];
    db.recurringItems := items;
  }

  /**
   * `PUT /api/recurring/:id`. Statements: 0 BEGIN, 1 the ownership
   * check (none is a 404), 2 the update; when `items` is sent, 3 delete the
   * items and 4 + k insert item k; then COMMIT.
   */
  method UpdateProfile(db: NodeDatabase, user: int, id: int, input: ProfileInput, today: int, fault: Option<nat>)
    returns (r: Outcome<NRecurring>)
    requires db.Valid()
    modifies db`recurring, db`recurringItems
    ensures db.Valid()
    ensures r.Fail? ==> db.recurring == old(db.recurring) && db.recurringItems == old(db.recurringItems)
    ensures Aborts(fault, 2) ==> r == Fail(500, DbError)
    ensures !Aborts(fault, 2) && !old(Owns(db, user, id)) ==> r == Fail(404, ProfileNotFound)
    ensures r.Ok? <==> old(Owns(db, user, id)) && !Aborts(fault, if input.items.Some? then |input.items.value| + 5 else 4)
    ensures r.Ok? ==> r.value == RevisedProfile(old(db.recurring[id]), input, today) && db.recurring == old(db.recurring)[id := r.value]
    ensures r.Ok? && input.items.None? ==> db.recurringItems == old(db.recurringItems)
    ensures r.Ok? && input.items.Some? ==>
              (db.recurringItems == ChildrenNotOf(old(db.recurringItems), id) + ChildrenOf(db.recurringItems, id)
               && LinesInOrder(ChildrenOf(db.recurringItems, id), id, input.items.value))
  {
    if Aborts(fault, 2) {
      return Fail(500, DbError);
    }
    if !Owns(db, user, id) {
      return Fail(404, ProfileNotFound);
    }
    if Aborts(fault, 4) {
      return Fail(500, DbError);
    }
    var row := RevisedProfile(db.recurring[id], input, today);
    assert row.id == id;
    if input.items.None? {
      CommitProfile(db, row, db.recurringItems);
      return Ok(row);
    }
    r := ReplaceProfileItems(db, row, input.items.value, fault);
  }

  /** Statements 3 to `4 + |inputs|` of the update: replace the profile's items, then COMMIT with the updated row. */
  method ReplaceProfileItems(db: NodeDatabase, row: NRecurring, inputs: seq<ItemInput>, fault: Option<nat>)
    returns (r: Outcome<NRecurring>)
    requires db.Valid() && row.id in db.recurring && !Aborts(fault, 4)
    modifies db`recurring, db`recurringItems
    ensures db.Valid()
    ensures Aborts(fault, |inputs| + 5) ==>
              r == Fail(500, DbError) && db.recurring == old(db.recurring) && db.recurringItems == old(db.recurringItems)
    ensures !Aborts(fault, |inputs| + 5) ==>
              r == Ok(row) && db.recurring == old(db.recurring)[row.id := row]
              && db.recurringItems == ChildrenNotOf(old(db.recurringItems), row.id) + ChildrenOf(db.recurringItems, row.id)
              && LinesInOrder(ChildrenOf(db.recurringItems, row.id), row.id, inputs)
  {
    var base := ChildrenNotOf(db.recurringItems, row.id);
    var lines, aborted := InsertLines(base, row.id, inputs, fault, 4);
    InsertionsAbort(fault, 4, |inputs|, aborted);
    if aborted || fault == Some(4 + |inputs|) {
      return Fail(500, DbError);
    }
    ReplacedParents(db.recurringItems, row.id, lines, inputs, db.recurring);
    ReplacedReadBack(db.recurringItems, row.id, lines, inputs);
    CommitProfile(db, row, base + lines);
    r := Ok(row);
  }

  /** `DELETE /api/recurring/:id`: removes the user's profile and its items; the same answer when there is none. */
  method DeleteProfile(db: NodeDatabase, user: int, id: int, fault: bool) returns (r: Outcome<string>)
    requires db.Valid()
    modifies db`recurring, db`recurringItems
    ensures db.Valid()
    ensures fault ==> r == Fail(500, DbError) && db.recurring == old(db.recurring) && db.recurringItems == old(db.recurringItems)
    ensures !fault ==> r == Ok("Recurring profile deleted")
    ensures !fault && old(Owns(db, user, id)) ==>
              db.recurring == old(db.recurring) - {id} && db.recurringItems == ChildrenNotOf(old(db.recurringItems), id)
    ensures !fault && !old(Owns(db, user, id)) ==>
              db.recurring == old(db.recurring) && db.recurringItems == old(db.recurringItems)
  {
    if fault {
      return Fail(500, DbError);
    }
    if Owns(db, user, id) {
      db.recurring := db.recurring - {id};
      db.recurringItems := ChildrenNotOf(db.recurringItems, id);
    }
    return Ok("Recurring profile deleted");
  }

  // ---------------------------------------------------------------------------
  // The list page's pause/resume toggle, seen from the server.

  /** The input the handler destructures from the toggle's body `{ status }`: every other field undefined, bound as NULL. */
  function StatusOnlyInput(status: string): (input: ProfileInput)
    ensures input.status == Some(status) && input.items.None?
  {
    ProfileInput(None, None, None, None, None, Some(status), None, None, None)
  }

  /**
   * As written, the toggle clears the profile: its client, interval, count,
   * dates, total and sending flag all become NULL, so a profile that had a
   * client is not the same profile with a new status.
   */
  lemma ToggleNullsProfile(p: NRecurring, status: string, today: int)
    ensures var q := RevisedProfile(p, StatusOnlyInput(status), today);
      && q.status == Some(status)
      && q.clientId.None? && q.interval.None? && q.intervalCount.None? && q.startDate.None?
      && q.endDate.None? && q.total.None? && q.sendAutomatically.None?
      && (p.clientId.Some? ==> q != p.(status := Some(status), updatedAt := today))
  {
  }

  /** The toggle's evident intent: the profile's own columns resent with the new status, and no items. */
  function KeptInput(p: NRecurring, status: string): (input: ProfileInput)
    ensures input.status == Some(status) && input.items.None?
    ensures input.clientId == p.clientId && input.interval == p.interval && input.total == p.total
  {
    ProfileInput(p.clientId, p.interval, p.intervalCount, p.startDate, p.endDate, Some(status), p.total,
                 p.sendAutomatically, None)
  }

  /** With that body the update changes only the status and `updated_at`. */
  lemma ToggleKeepsProfile(p: NRecurring, status: string, today: int)
    ensures RevisedProfile(p, KeptInput(p, status), today) == p.(status := Some(status), updatedAt := today)
  {
  }
}
