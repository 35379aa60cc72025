/**
 * backend/invoice-service/src/main.rs, the transactional half: invoices with
 * their line items, estimates, recurring profiles and the "send" transition.
 * Every query is scoped to the caller; an invoice and its items are written
 * inside one transaction that either commits or leaves the tables as they were.
 */
module InvoiceService {
  import opened Wrappers
  import Tables
  import opened RustDb

  const NotFound: string := "Not found"

  /** `CreateInvoiceItemRequest`: the item columns as the request supplies them. */
  datatype ItemRequest = ItemRequest(description: string, quantity: real, price: real, amount: real)

  /** `CreateInvoiceRequest`, used by both create and update. */
  datatype InvoiceRequest = InvoiceRequest(
    clientId: Option<int>, invoiceNumber: string, status: string, total: real,
    dueDate: Option<int>, notes: Option<string>, items: seq<ItemRequest>)

  /** An invoice row with the client columns a `LEFT JOIN clients` adds (NULL when not selected). */
  datatype InvoiceView = InvoiceView(row: InvoiceRow, clientName: Option<string>, clientEmail: Option<string>)

  /** `InvoiceWithItems`. */
  datatype InvoiceWithItems = InvoiceWithItems(invoice: InvoiceView, items: seq<InvoiceItem>)

  /** An estimate or recurring row with the joined client name. */
  datatype EstimateView = EstimateView(row: EstimateRow, clientName: Option<string>)
  datatype RecurringView = RecurringView(row: RecurringRow, clientName: Option<string>)

  // ---------------------------------------------------------------------------
  // Rows as the handlers write them.

  /** The row `create_invoice` inserts: the caller as owner, every other column from the request. */
  function NewInvoice(id: int, user: int, req: InvoiceRequest, today: int): InvoiceRow
  {
    InvoiceRow(id, user, req.clientId, req.invoiceNumber, req.status, req.total, req.dueDate, req.notes, today)
  }

  /** The row `update_invoice` leaves: the six request columns over the old row. */
  function RevisedInvoice(old_row: InvoiceRow, req: InvoiceRequest): InvoiceRow
  {
    old_row.(clientId := req.clientId, invoiceNumber := req.invoiceNumber, status := req.status,
             total := req.total, dueDate := req.dueDate, notes := req.notes)
  }

  /** An item row: the request's values, stored as given, bound to its invoice. */
  function ItemFrom(id: int, invoiceId: int, req: ItemRequest): InvoiceItem
  {
    InvoiceItem(id, invoiceId, req.description, req.quantity, req.price, req.amount)
  }

  /** `items[k]` is request item `k` stored for invoice `invoiceId`, in request order. */
  predicate StoredInOrder(items: seq<InvoiceItem>, invoiceId: int, reqs: seq<ItemRequest>)
  {
    |items| == |reqs| && forall k :: 0 <= k < |items| ==> items[k] == ItemFrom(items[k].id, invoiceId, reqs[k])
  }

  // ---------------------------------------------------------------------------
  // The item table seen through one invoice.

  /** `SELECT ... FROM invoice_items WHERE invoice_id = $1`, in table order. */
  function ItemsOf(items: seq<InvoiceItem>, invoiceId: int): (r: seq<InvoiceItem>)
    ensures forall x :: x in r <==> x in items && x.invoiceId == invoiceId
  {
    if items == [] then []
    else (if items[0].invoiceId == invoiceId then [items[0]] else []) + ItemsOf(items[1..], invoiceId)
  }

  /** The item table once `DELETE FROM invoice_items WHERE invoice_id = $1` has run. */
  function ItemsNotOf(items: seq<InvoiceItem>, invoiceId: int): (r: seq<InvoiceItem>)
    ensures forall x :: x in r <==> x in items && x.invoiceId != invoiceId
    ensures |r| <= |items|
  {
    if items == [] then []
    else (if items[0].invoiceId != invoiceId then [items[0]] else []) + ItemsNotOf(items[1..], invoiceId)
  }

  lemma {:induction false} ItemsOfAppend(a: seq<InvoiceItem>, b: seq<InvoiceItem>, invoiceId: int)
    ensures ItemsOf(a + b, invoiceId) == ItemsOf(a, invoiceId) + ItemsOf(b, invoiceId)
  {
    if a == [] {
      assert a + b == b;
    } else {
      assert (a + b)[1..] == a[1..] + b;
      ItemsOfAppend(a[1..], b, invoiceId);
    }
  }

  lemma ItemsOfNone(a: seq<InvoiceItem>, invoiceId: int)
    requires forall x :: x in a ==> x.invoiceId != invoiceId
    ensures ItemsOf(a, invoiceId) == []
  {
    if ItemsOf(a, invoiceId) != [] {
      assert ItemsOf(a, invoiceId)[0] in ItemsOf(a, invoiceId);
    }
  }

  lemma {:induction false} ItemsOfAll(b: seq<InvoiceItem>, invoiceId: int)
    requires forall x :: x in b ==> x.invoiceId == invoiceId
    ensures ItemsOf(b, invoiceId) == b
  {
    if b != [] {
      assert b[0] in b;
      ItemsOfAll(b[1..], invoiceId);
      assert [b[0]] + b[1..] == b;
    }
  }

  /** Deleting one invoice's items leaves the other items' ids distinct. */
  lemma {:induction false} ItemsNotOfDistinct(items: seq<InvoiceItem>, invoiceId: int)
    requires DistinctItemIds(items)
    ensures DistinctItemIds(ItemsNotOf(items, invoiceId))
  {
    if items != [] {
      var rest := items[1..];
      assert DistinctItemIds(rest) by {
        forall i, j | 0 <= i < j < |rest| ensures rest[i].id != rest[j].id {
          assert rest[i] == items[i + 1] && rest[j] == items[j + 1];
        }
      }
      ItemsNotOfDistinct(rest, invoiceId);
      var tail := ItemsNotOf(rest, invoiceId);
      if items[0].invoiceId != invoiceId {
        var s := [items[0]] + tail;
        forall i, j | 0 <= i < j < |s| ensures s[i].id != s[j].id {
          if i == 0 {
            assert s[j] in rest;
            var m :| 0 <= m < |rest| && rest[m] == s[j];
            assert rest[m] == items[m + 1];
          } else {
            assert s[i] == tail[i - 1] && s[j] == tail[j - 1];
          }
        }
      }
    }
  }

  /** The item that follows `table` under a fresh id. */
  function NextItem(table: seq<InvoiceItem>, invoiceId: int, req: ItemRequest): (item: InvoiceItem)
    ensures item.id !in ItemIds(table)
  {
    ItemFrom(Tables.NextId(ItemIds(table)), invoiceId, req)
  }

  // ---------------------------------------------------------------------------
  // Reads.

  predicate OwnsInvoice(db: Database, user: int, id: int)
    reads db
  {
    id in db.invoices && db.invoices[id].userId == user
  }

  /** `c.name` of `LEFT JOIN clients c ON x.client_id = c.id`: any client with that id, whoever owns it. */
  function JoinedName(db: Database, clientId: Option<int>): (name: Option<string>)
    reads db
    ensures name.Some? <==> clientId.Some? && clientId.value in db.clients
    ensures name.Some? ==> name.value == db.clients[clientId.value].name
  {
    if clientId.Some? && clientId.value in db.clients then Some(db.clients[clientId.value].name) else None
  }

  /** `c.email` of the same join. */
  function JoinedEmail(db: Database, clientId: Option<int>): (email: Option<string>)
    reads db
    ensures clientId.Some? && clientId.value in db.clients ==> email == db.clients[clientId.value].email
    ensures clientId.None? || clientId.value !in db.clients ==> email.None?
  {
    if clientId.Some? && clientId.value in db.clients then db.clients[clientId.value].email else None
  }

  /**
   * `ORDER BY i.created_at DESC`. `createdAt` holds the day only; within a
   * day the row inserted later, which holds the higher serial id, comes first.
   */
  predicate NewestFirst(a: InvoiceRow, b: InvoiceRow)
  {
    a.createdAt > b.createdAt || (a.createdAt == b.createdAt && a.id >= b.id)
  }

  /** Any two rows compare, and the comparison is transitive. */
  lemma NewestFirstOrders(rows: seq<InvoiceRow>)
    ensures Tables.TotalPreorder(rows, NewestFirst)
  {
  }

  /** `list_invoices`: the caller's invoices, newest first, with their client's name. */
  function ListInvoices(db: Database, user: int): (rows: seq<InvoiceView>)
    reads db
    ensures forall v :: v in rows ==> v.row in db.invoices.Values && v.row.userId == user
                                      && v.clientName == JoinedName(db, v.row.clientId) && v.clientEmail.None?
    ensures forall id :: OwnsInvoice(db, user, id) ==>
              InvoiceView(db.invoices[id], JoinedName(db, db.invoices[id].clientId), None) in rows
    ensures forall i, j :: 0 <= i < j < |rows| ==> NewestFirst(rows[i].row, rows[j].row)
  {
    var mine := Tables.Select(db.invoices, (i: InvoiceRow) => i.userId == user);
    assert forall id :: OwnsInvoice(db, user, id) ==> db.invoices[id] in mine;
    NewestFirstOrders(mine);
    var sorted := Tables.OrderBy(mine, NewestFirst);
    InvoiceViews(db, sorted)
  }

  /** Each row of `rows` with its joined client columns. */
  function InvoiceViews(db: Database, rows: seq<InvoiceRow>): (views: seq<InvoiceView>)
    reads db
    ensures |views| == |rows| && forall i :: 0 <= i < |rows| ==> views[i].row == rows[i]
    ensures forall r :: r in rows ==> InvoiceView(r, JoinedName(db, r.clientId), None) in views
    ensures forall v :: v in views ==> v.row in rows && v.clientName == JoinedName(db, v.row.clientId) && v.clientEmail.None?
  {
    if rows == [] then [] else [InvoiceView(rows[0], JoinedName(db, rows[0].clientId), None)] + InvoiceViews(db, rows[1..])
  }

  /** `get_invoice`: the caller's invoice with client name and email and its items, or 404. */
  function GetInvoice(db: Database, user: int, id: int): (r: Outcome<InvoiceWithItems>)
    reads db
    ensures r.Ok? <==> OwnsInvoice(db, user, id)
    ensures r.Fail? ==> r == Fail(404, NotFound)
    ensures r.Ok? ==> r.value.invoice.row == db.invoices[id]
                      && r.value.invoice.clientName == JoinedName(db, db.invoices[id].clientId)
                      && r.value.invoice.clientEmail == JoinedEmail(db, db.invoices[id].clientId)
    ensures r.Ok? ==> forall x :: x in r.value.items <==> x in db.invoiceItems && x.invoiceId == id
  {
    if !OwnsInvoice(db, user, id) then Fail(404, NotFound)
    else
      var row := db.invoices[id];
      Ok(InvoiceWithItems(InvoiceView(row, JoinedName(db, row.clientId), JoinedEmail(db, row.clientId)),
                          ItemsOf(db.invoiceItems, id)))
  }

  // ---------------------------------------------------------------------------
  // Writes.

  /**
   * The item loop of `create_invoice` and `update_invoice` run against a copy
   * of the item table: request item k is inserted by statement `first + k`
   * under the next free id. `aborted` is set when one of those statements
   * fails; the loop then stops and the copy is dropped.
   */
  method InsertItems(table: seq<InvoiceItem>, invoiceId: int, reqs: seq<ItemRequest>, fault: Option<nat>, first: nat)
    returns (items: seq<InvoiceItem>, aborted: bool)
    requires DistinctItemIds(table)
    ensures aborted <==> fault.Some? && first <= fault.value < first + |reqs|
    ensures !aborted ==> StoredInOrder(items, invoiceId, reqs)
    ensures !aborted ==> DistinctItemIds(table + items)
    ensures !aborted ==> forall x :: x in items ==> x.id !in ItemIds(table)
  {
    items := [];
    var k := 0;
    while k < |reqs|
      invariant 0 <= k <= |reqs|
      invariant StoredInOrder(items, invoiceId, reqs[..k])
      invariant DistinctItemIds(table + items)
      invariant forall x :: x in items ==> x.id !in ItemIds(table)
      invariant !(fault.Some? && first <= fault.value < first + k)
    {
      if fault == Some(first + k) {
        return items, true;
      }
      var item := NextItem(table + items, invoiceId, reqs[k]);
      AppendFresh(table + items, item);
      IdsOfPrefix(table, items);
      assert table + items + [item] == table + (items + [item]);
      items := items + [item];
      k := k + 1;
    }
    assert reqs[..k] == reqs;
    return items, false;
  }

  lemma IdsOfPrefix(a: seq<InvoiceItem>, b: seq<InvoiceItem>)
    ensures ItemIds(a) <= ItemIds(a + b)
  {
    forall i | 0 <= i < |a| ensures a[i].id in ItemIds(a + b) {
      assert (a + b)[i] == a[i];
    }
  }

  /** A committed item list makes `get_invoice` return exactly that list. */
  lemma {:induction false} ItemsReadBack(base: seq<InvoiceItem>, items: seq<InvoiceItem>, invoiceId: int)
    requires forall x :: x in base ==> x.invoiceId != invoiceId
    requires forall x :: x in items ==> x.invoiceId == invoiceId
    ensures ItemsOf(base + items, invoiceId) == items
  {
    ItemsOfAppend(base, items, invoiceId);
    ItemsOfNone(base, invoiceId);
    ItemsOfAll(items, invoiceId);
  }

  /** Items stored for an invoice carry that invoice's id. */
  lemma StoredBelongTo(items: seq<InvoiceItem>, invoiceId: int, reqs: seq<ItemRequest>)
    requires StoredInOrder(items, invoiceId, reqs)
    ensures forall x :: x in items ==> x.invoiceId == invoiceId
  {
    forall x | x in items ensures x.invoiceId == invoiceId {
      var k :| 0 <= k < |items| && items[k] == x;
    }
  }

  /**
   * The commit shared by create and update: the invoice row is written and the
   * item table becomes `base` (the items of other invoices) followed by the
   * new list, which `get_invoice` then returns.
   */
  method CommitInvoice(db: Database, row: InvoiceRow, base: seq<InvoiceItem>, items: seq<InvoiceItem>)
    requires db.Valid()
    requires forall x :: x in base ==> x.invoiceId in db.invoices && x.invoiceId != row.id
    requires forall x :: x in items ==> x.invoiceId == row.id
    requires DistinctItemIds(base + items)
    modifies db`invoices, db`invoiceItems
    ensures db.Valid()
    ensures db.invoices == old(db.invoices)[row.id := row] && db.invoiceItems == base + items
    ensures GetInvoice(db, row.userId, row.id) == Ok(InvoiceWithItems(
              InvoiceView(row, JoinedName(db, row.clientId), JoinedEmail(db, row.clientId)), items))
  {
    ItemsReadBack(base, items, row.id);
    db.invoices := db.invoices[row.id := row];
    db.invoiceItems := base + items;
  }

  /**
   * `create_invoice`. Statements: 0 begin, 1 insert the invoice, 2 + k insert
   * item k, 2 + |items| commit. Any failure answers 500 and rolls back.
   */
  method CreateInvoice(db: Database, user: int, req: InvoiceRequest, today: int, fault: Option<nat>)
    returns (r: Outcome<InvoiceWithItems>)
    requires db.Valid()
    modifies db`invoices, db`invoiceItems
    ensures db.Valid()
    ensures Aborts(fault, |req.items| + 3) ==>
              r == Fail(500, DbError) && db.invoices == old(db.invoices) && db.invoiceItems == old(db.invoiceItems)
    ensures !Aborts(fault, |req.items| + 3) ==>
              r.Ok? && var id := r.value.invoice.row.id;
              id !in old(db.invoices)
              && r.value.invoice == InvoiceView(NewInvoice(id, user, req, today), None, None)
              && StoredInOrder(r.value.items, id, req.items)
              && db.invoices == old(db.invoices)[id := r.value.invoice.row]
              && db.invoiceItems == old(db.invoiceItems) + r.value.items
    ensures r.Ok? ==> var got := GetInvoice(db, user, r.value.invoice.row.id);
              got.Ok? && got.value.invoice.row == r.value.invoice.row && got.value.items == r.value.items
  {
    if fault == Some(0) || fault == Some(1) {
      return Fail(500, DbError);
    }
    var id := Tables.NextId(db.invoices.Keys);
    var row := NewInvoice(id, user, req, today);
    var items, aborted := InsertItems(db.invoiceItems, id, req.items, fault, 2);
    if aborted || fault == Some(2 + |req.items|) {
      return Fail(500, DbError);
    }
    StoredBelongTo(items, id, req.items);
    CommitInvoice(db, row, db.invoiceItems, items);
    r := Ok(InvoiceWithItems(InvoiceView(row, None, None), items));
  }

  /**
   * `update_invoice`. Statements: 0 begin, 1 the owner-scoped update (no match
   * is `RowNotFound`, a 500), 2 delete the invoice's items, 3 + k insert item k,
   * 3 + |items| commit. Any failure answers 500 and rolls back.
   */
  method UpdateInvoice(db: Database, user: int, id: int, req: InvoiceRequest, fault: Option<nat>)
    returns (r: Outcome<InvoiceWithItems>)
    requires db.Valid()
    modifies db`invoices, db`invoiceItems
    ensures db.Valid()
    ensures Aborts(fault, 2) ==>
              r == Fail(500, DbError) && db.invoices == old(db.invoices) && db.invoiceItems == old(db.invoiceItems)
    ensures !Aborts(fault, 2) && !old(OwnsInvoice(db, user, id)) ==>
              r == Fail(500, RowNotFound) && db.invoices == old(db.invoices) && db.invoiceItems == old(db.invoiceItems)
    ensures old(OwnsInvoice(db, user, id)) && Aborts(fault, |req.items| + 4) ==>
              r.Fail? && r.status == 500 && db.invoices == old(db.invoices) && db.invoiceItems == old(db.invoiceItems)
    ensures old(OwnsInvoice(db, user, id)) && !Aborts(fault, |req.items| + 4) ==>
              r.Ok? && r.value.invoice == InvoiceView(RevisedInvoice(old(db.invoices[id]), req), None, None)
              && StoredInOrder(r.value.items, id, req.items)
              && db.invoices == old(db.invoices)[id := r.value.invoice.row]
              && db.invoiceItems == ItemsNotOf(old(db.invoiceItems), id) + r.value.items
    ensures r.Ok? ==> var got := GetInvoice(db, user, id);
              got.Ok? && got.value.invoice.row == r.value.invoice.row && got.value.items == r.value.items
  {
    if fault == Some(0) || fault == Some(1) {
      return Fail(500, DbError);
    }
    if !OwnsInvoice(db, user, id) {
      return Fail(500, RowNotFound);
    }
    var row := RevisedInvoice(db.invoices[id], req);
    if fault == Some(2) {
      return Fail(500, DbError);
    }
    var base := ItemsNotOf(db.invoiceItems, id);
    ItemsNotOfDistinct(db.invoiceItems, id);
    var items, aborted := InsertItems(base, id, req.items, fault, 3);
    if aborted || fault == Some(3 + |req.items|) {
      return Fail(500, DbError);
    }
    StoredBelongTo(items, id, req.items);
    CommitInvoice(db, row, base, items);
    r := Ok(InvoiceWithItems(InvoiceView(row, None, None), items));
  }

  /** `delete_invoice`: removes the caller's invoice (its items cascade) and answers 204 in every case. */
  method DeleteInvoice(db: Database, user: int, id: int, fault: bool) returns (r: Outcome<int>)
    requires db.Valid()
    modifies db`invoices, db`invoiceItems
    ensures db.Valid()
    ensures fault ==> r == Fail(500, DbError)
    ensures !fault ==> r == Ok(204)
    ensures fault || !old(OwnsInvoice(db, user, id)) ==>
              db.invoices == old(db.invoices) && db.invoiceItems == old(db.invoiceItems)
    ensures !fault && old(OwnsInvoice(db, user, id)) ==>
              db.invoices == old(db.invoices) - {id} && db.invoiceItems == ItemsNotOf(old(db.invoiceItems), id)
    ensures GetInvoice(db, user, id).Fail? || fault
  {
    if fault {
      return Fail(500, DbError);
    }
    if OwnsInvoice(db, user, id) {
      ItemsNotOfDistinct(db.invoiceItems, id);
      db.invoices := db.invoices - {id};
      db.invoiceItems := ItemsNotOf(db.invoiceItems, id);
    }
    return Ok(204);
  }

  /**
   * `send_invoice_email`. Statements: 0 the owner-scoped lookup (no match is a
   * 404), 1 the status update, which moves only a 'draft' invoice to 'sent'.
   */
  method SendInvoice(db: Database, user: int, id: int, fault: Option<nat>) returns (r: Outcome<int>)
    requires db.Valid()
    modifies db`invoices
    ensures db.Valid()
    ensures fault == Some(0) ==> r == Fail(500, DbError) && db.invoices == old(db.invoices)
    ensures fault != Some(0) && !old(OwnsInvoice(db, user, id)) ==> r == Fail(404, NotFound) && db.invoices == old(db.invoices)
    ensures fault == Some(1) && old(OwnsInvoice(db, user, id)) ==> r == Fail(500, DbError) && db.invoices == old(db.invoices)
    ensures r.Ok? <==> old(OwnsInvoice(db, user, id)) && !Aborts(fault, 2)
    ensures r.Ok? ==> r.value == 200
    ensures r.Ok? && old(db.invoices[id].status) == "draft" ==>
              db.invoices == old(db.invoices)[id := old(db.invoices[id]).(status := "sent")]
    ensures r.Ok? && old(db.invoices[id].status) != "draft" ==> db.invoices == old(db.invoices)
  {
    if fault == Some(0) {
      return Fail(500, DbError);
    }
    if !OwnsInvoice(db, user, id) {
      return Fail(404, NotFound);
    }
    if fault == Some(1) {
      return Fail(500, DbError);
    }
    if db.invoices[id].status == "draft" {
      db.invoices := db.invoices[id := db.invoices[id].(status := "sent")];
    }
    return Ok(200);
  }

  /** Sending twice leaves what sending once left: the transition fires only from 'draft'. */
  method SendTwice(db: Database, user: int, id: int) returns (first: Outcome<int>, second: Outcome<int>)
    requires db.Valid()
    modifies db`invoices
    ensures first.Ok? <==> old(OwnsInvoice(db, user, id))
    ensures second == first
    ensures first.Ok? ==> OwnsInvoice(db, user, id)
    ensures first.Ok? && old(db.invoices[id].status) == "draft" ==> db.invoices[id].status == "sent"
    ensures first.Ok? && old(db.invoices[id].status) != "draft" ==> db.invoices == old(db.invoices)
  {
    first := SendInvoice(db, user, id, None);
    second := SendInvoice(db, user, id, None);
  }

  // ---------------------------------------------------------------------------
  // Estimates.

  predicate OwnsEstimate(db: Database, user: int, id: int)
    reads db
  {
    id in db.estimates && db.estimates[id].userId == user
  }

  /** The row `create_estimate` inserts: the payload's columns, but the caller as owner. */
  function NewEstimate(id: int, user: int, payload: EstimateRow, today: int): EstimateRow
  {
    EstimateRow(id, user, payload.clientId, payload.estimateNumber, payload.status, payload.total,
                payload.issueDate, payload.expiryDate, today)
  }

  function RevisedEstimate(old_row: EstimateRow, payload: EstimateRow): EstimateRow
  {
    old_row.(clientId := payload.clientId, estimateNumber := payload.estimateNumber, status := payload.status,
             total := payload.total, issueDate := payload.issueDate, expiryDate := payload.expiryDate)
  }

  function ListEstimates(db: Database, user: int): (rows: seq<EstimateView>)
    reads db
    ensures forall v :: v in rows ==> v.row in db.estimates.Values && v.row.userId == user
                                      && v.clientName == JoinedName(db, v.row.clientId)
    ensures forall id :: OwnsEstimate(db, user, id) ==>
              EstimateView(db.estimates[id], JoinedName(db, db.estimates[id].clientId)) in rows
  {
    var mine := Tables.Select(db.estimates, (e: EstimateRow) => e.userId == user);
    assert forall id :: OwnsEstimate(db, user, id) ==> db.estimates[id] in mine;
    EstimateViews(db, mine)
  }

  /** Each row of `rows` with its joined client columns. */
  function EstimateViews(db: Database, rows: seq<EstimateRow>): (views: seq<EstimateView>)
    reads db
    ensures forall r :: r in rows ==> EstimateView(r, JoinedName(db, r.clientId)) in views
    ensures forall v :: v in views ==> v.row in rows && v.clientName == JoinedName(db, v.row.clientId)
  {
    if rows == [] then [] else [EstimateView(rows[0], JoinedName(db, rows[0].clientId))] + EstimateViews(db, rows[1..])
  }

  function GetEstimate(db: Database, user: int, id: int): (r: Outcome<EstimateView>)
    reads db
    ensures r.Ok? <==> OwnsEstimate(db, user, id)
    ensures r.Fail? ==> r == Fail(404, NotFound)
    ensures r.Ok? ==> r.value.row == db.estimates[id] && r.value.clientName == JoinedName(db, db.estimates[id].clientId)
  {
    if OwnsEstimate(db, user, id) then Ok(EstimateView(db.estimates[id], JoinedName(db, db.estimates[id].clientId)))
    else Fail(404, NotFound)
  }

  method CreateEstimate(db: Database, user: int, payload: EstimateRow, today: int, fault: bool) returns (r: Outcome<EstimateRow>)
    requires db.Valid()
    modifies db`estimates
    ensures db.Valid()
    ensures fault ==> r == Fail(500, DbError) && db.estimates == old(db.estimates)
    ensures !fault ==> r.Ok? && r.value.id !in old(db.estimates)
                       && r.value == NewEstimate(r.value.id, user, payload, today)
                       && db.estimates == old(db.estimates)[r.value.id := r.value]
    ensures r.Ok? ==> r.value.userId == user && GetEstimate(db, user, r.value.id).Ok?
  {
    if fault {
      return Fail(500, DbError);
    }
    var id := Tables.NextId(db.estimates.Keys);
    var row := NewEstimate(id, user, payload, today);
    db.estimates := db.estimates[id := row];
    return Ok(row);
  }

  method UpdateEstimate(db: Database, user: int, id: int, payload: EstimateRow, fault: bool) returns (r: Outcome<EstimateRow>)
    requires db.Valid()
    modifies db`estimates
    ensures db.Valid()
    ensures fault ==> r == Fail(500, DbError) && db.estimates == old(db.estimates)
    ensures !fault && !old(OwnsEstimate(db, user, id)) ==> r == Fail(500, RowNotFound) && db.estimates == old(db.estimates)
    ensures !fault && old(OwnsEstimate(db, user, id)) ==>
              r == Ok(RevisedEstimate(old(db.estimates[id]), payload))
              && db.estimates == old(db.estimates)[id := r.value]
    ensures r.Ok? ==> r.value.userId == user && r.value.createdAt == old(db.estimates[id].createdAt)
  {
    if fault {
      return Fail(500, DbError);
    }
    if !OwnsEstimate(db, user, id) {
      return Fail(500, RowNotFound);
    }
    var row := RevisedEstimate(db.estimates[id], payload);
    db.estimates := db.estimates[id := row];
    return Ok(row);
  }

  method DeleteEstimate(db: Database, user: int, id: int, fault: bool) returns (r: Outcome<int>)
    requires db.Valid()
    modifies db`estimates
    ensures db.Valid()
    ensures fault ==> r == Fail(500, DbError) && db.estimates == old(db.estimates)
    ensures !fault ==> r == Ok(204)
    ensures !fault && old(OwnsEstimate(db, user, id)) ==> db.estimates == old(db.estimates) - {id}
    ensures !fault && !old(OwnsEstimate(db, user, id)) ==> db.estimates == old(db.estimates)
  {
    if fault {
      return Fail(500, DbError);
    }
    if OwnsEstimate(db, user, id) {
      db.estimates := db.estimates - {id};
    }
    return Ok(204);
  }

  // ---------------------------------------------------------------------------
  // Recurring profiles. No handler computes a schedule: `next_run` is stored as
  // supplied and `last_run` is never written.

  predicate OwnsRecurring(db: Database, user: int, id: int)
    reads db
  {
    id in db.recurring && db.recurring[id].userId == user
  }

  function NewRecurring(id: int, user: int, payload: RecurringRow, today: int): RecurringRow
  {
    RecurringRow(id, user, payload.clientId, payload.interval, payload.intervalCount, payload.startDate,
                 payload.nextRun, None, payload.status, payload.total, today)
  }

  function RevisedRecurring(old_row: RecurringRow, payload: RecurringRow): RecurringRow
  {
    old_row.(clientId := payload.clientId, interval := payload.interval, intervalCount := payload.intervalCount,
             startDate := payload.startDate, nextRun := payload.nextRun, status := payload.status,
             total := payload.total)
  }

  function ListRecurring(db: Database, user: int): (rows: seq<RecurringView>)
    reads db
    ensures forall v :: v in rows ==> v.row in db.recurring.Values && v.row.userId == user
                                      && v.clientName == JoinedName(db, v.row.clientId)
    ensures forall id :: OwnsRecurring(db, user, id) ==>
              RecurringView(db.recurring[id], JoinedName(db, db.recurring[id].clientId)) in rows
  {
    var mine := Tables.Select(db.recurring, (p: RecurringRow) => p.userId == user);
    assert forall id :: OwnsRecurring(db, user, id) ==> db.recurring[id] in mine;
    RecurringViews(db, mine)
  }

  /** Each row of `rows` with its joined client columns. */
  function RecurringViews(db: Database, rows: seq<RecurringRow>): (views: seq<RecurringView>)
    reads db
    ensures forall r :: r in rows ==> RecurringView(r, JoinedName(db, r.clientId)) in views
    ensures forall v :: v in views ==> v.row in rows && v.clientName == JoinedName(db, v.row.clientId)
  {
    if rows == [] then [] else [RecurringView(rows[0], JoinedName(db, rows[0].clientId))] + RecurringViews(db, rows[1..])
  }

  function GetRecurring(db: Database, user: int, id: int): (r: Outcome<RecurringView>)
    reads db
    ensures r.Ok? <==> OwnsRecurring(db, user, id)
    ensures r.Fail? ==> r == Fail(404, NotFound)
    ensures r.Ok? ==> r.value.row == db.recurring[id] && r.value.clientName == JoinedName(db, db.recurring[id].clientId)
  {
    if OwnsRecurring(db, user, id) then Ok(RecurringView(db.recurring[id], JoinedName(db, db.recurring[id].clientId)))
    else Fail(404, NotFound)
  }

  method CreateRecurring(db: Database, user: int, payload: RecurringRow, today: int, fault: bool) returns (r: Outcome<RecurringRow>)
    requires db.Valid()
    modifies db`recurring
    ensures db.Valid()
    ensures fault ==> r == Fail(500, DbError) && db.recurring == old(db.recurring)
    ensures !fault ==> r.Ok? && r.value.id !in old(db.recurring)
                       && r.value == NewRecurring(r.value.id, user, payload, today)
                       && db.recurring == old(db.recurring)[r.value.id := r.value]
    ensures r.Ok? ==> r.value.userId == user && r.value.lastRun.None? && r.value.nextRun == payload.nextRun
  {
    if fault {
      return Fail(500, DbError);
    }
    var id := Tables.NextId(db.recurring.Keys);
    var row := NewRecurring(id, user, payload, today);
    db.recurring := db.recurring[id := row];
    return Ok(row);
  }

  method UpdateRecurring(db: Database, user: int, id: int, payload: RecurringRow, fault: bool) returns (r: Outcome<RecurringRow>)
    requires db.Valid()
    modifies db`recurring
    ensures db.Valid()
    ensures fault ==> r == Fail(500, DbError) && db.recurring == old(db.recurring)
    ensures !fault && !old(OwnsRecurring(db, user, id)) ==> r == Fail(500, RowNotFound) && db.recurring == old(db.recurring)
    ensures !fault && old(OwnsRecurring(db, user, id)) ==>
              r == Ok(RevisedRecurring(old(db.recurring[id]), payload))
              && db.recurring == old(db.recurring)[id := r.value]
    ensures r.Ok? ==> r.value.lastRun == old(db.recurring[id].lastRun) && r.value.nextRun == payload.nextRun
  {
    if fault {
      return Fail(500, DbError);
    }
    if !OwnsRecurring(db, user, id) {
      return Fail(500, RowNotFound);
    }
    var row := RevisedRecurring(db.recurring[id], payload);
    db.recurring := db.recurring[id := row];
    return Ok(row);
  }

  method DeleteRecurring(db: Database, user: int, id: int, fault: bool) returns (r: Outcome<int>)
    requires db.Valid()
    modifies db`recurring
    ensures db.Valid()
    ensures fault ==> r == Fail(500, DbError) && db.recurring == old(db.recurring)
    ensures !fault ==> r == Ok(204)
    ensures !fault && old(OwnsRecurring(db, user, id)) ==> db.recurring == old(db.recurring) - {id}
    ensures !fault && !old(OwnsRecurring(db, user, id)) ==> db.recurring == old(db.recurring)
  {
    if fault {
      return Fail(500, DbError);
    }
    if OwnsRecurring(db, user, id) {
      db.recurring := db.recurring - {id};
    }
    return Ok(204);
  }
}
