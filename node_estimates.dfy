/**
 * server/routes/estimates.js: a user's estimates, numbered by the numbering
 * service, and their one-way conversion into a draft invoice. Every handler
 * acts on the authenticated user's rows only.
 *
 * The numbering queries run on the transaction's connection: when one fails,
 * the service falls back to a timestamp number, but PostgreSQL then refuses
 * every later statement of the aborted transaction, so the handler answers 500
 * and rolls back like any other failure.
 */
module NodeEstimates {
  import opened Wrappers
  import Tables
  import opened NodeDb
  import NodeNumbering
  import NodeInvoices

  const EstimateNotFound: string := "Estimate not found"
  const CannotEditConverted: string := "Cannot edit converted estimate"
  const AlreadyConverted: string := "Estimate already converted"
  const Converted: string := "converted"
  const ConvertedMessage: string := "Estimate converted to invoice"
  /** A converted invoice is due thirty days after the conversion. */
  const DueInDays: int := 30

  predicate Owns(db: NodeDatabase, user: int, id: int)
    reads db
  {
    id in db.estimates && db.estimates[id].userId == user
  }

  // ---------------------------------------------------------------------------
  // Reads.

  datatype EstimateView = EstimateView(row: NEstimate, clientName: Option<string>, clientEmail: Option<string>, clientAddress: Option<string>)

  datatype EstimateWithItems = EstimateWithItems(estimate: EstimateView, items: seq<LineItem>)

  /** The list's join selects the client's name and email. */
  function ListView(db: NodeDatabase, row: NEstimate): EstimateView
    reads db
  {
    var c := NodeInvoices.JoinedClient(db, row.clientId);
    EstimateView(row, NodeInvoices.ClientColumn(c, (x: NClient) => x.name), NodeInvoices.ClientColumn(c, (x: NClient) => x.email), None)
  }

  function ListViews(db: NodeDatabase, rows: seq<NEstimate>): (views: seq<EstimateView>)
    reads db
    ensures |views| == |rows| && forall i :: 0 <= i < |rows| ==> views[i] == ListView(db, rows[i])
    ensures forall r :: r in rows ==> ListView(db, r) in views
    ensures forall v :: v in views ==> v.row in rows && v == ListView(db, v.row)
  {
    if rows == [] then [] else [ListView(db, rows[0])] + ListViews(db, rows[1..])
  }

  /**
   * `ORDER BY e.created_at DESC`. `createdAt` holds the day only; within a
   * day the row inserted later, which holds the higher serial id, comes first.
   */
  predicate NewestFirst(a: NEstimate, b: NEstimate)
  {
    a.createdAt > b.createdAt || (a.createdAt == b.createdAt && a.id >= b.id)
  }

  /** Any two rows compare, and the comparison is transitive. */
  lemma NewestFirstOrders(rows: seq<NEstimate>)
    ensures Tables.TotalPreorder(rows, NewestFirst)
  {
  }

  /** `GET /api/estimates`: the user's estimates and no one else's, newest first. */
  function ListEstimates(db: NodeDatabase, user: int): (views: seq<EstimateView>)
    reads db
    ensures forall v :: v in views ==> v.row in db.estimates.Values && v.row.userId == user && v == ListView(db, v.row)
    ensures forall id :: Owns(db, user, id) ==> ListView(db, db.estimates[id]) in views
    ensures forall i, j :: 0 <= i < j < |views| ==> NewestFirst(views[i].row, views[j].row)
  {
    var mine := Tables.Select(db.estimates, (e: NEstimate) => e.userId == user);
    NewestFirstOrders(mine);
    ListViews(db, Tables.OrderBy(mine, NewestFirst))
  }

  /** `GET /api/estimates/:id`: the user's estimate with its client and items, or 404. */
  function GetEstimate(db: NodeDatabase, user: int, id: int): (r: Outcome<EstimateWithItems>)
    reads db
    ensures r.Ok? <==> Owns(db, user, id)
    ensures r.Fail? ==> r == Fail(404, EstimateNotFound)
    ensures r.Ok? ==> r.value.estimate.row == db.estimates[id]
    ensures r.Ok? ==>
              var c := NodeInvoices.JoinedClient(db, db.estimates[id].clientId);
              (c.Some? ==> r.value.estimate.clientName == c.value.name && r.value.estimate.clientEmail == c.value.email
                           && r.value.estimate.clientAddress == c.value.address)
              && (c.None? ==> r.value.estimate.clientName.None? && r.value.estimate.clientEmail.None?
                              && r.value.estimate.clientAddress.None?)
    ensures r.Ok? ==> forall x :: x in r.value.items <==> x in db.estimateItems && x.parentId == id
  {
    if !Owns(db, user, id) then Fail(404, EstimateNotFound)
    else
      var row := db.estimates[id];
      var c := NodeInvoices.JoinedClient(db, row.clientId);
      var view := EstimateView(row, NodeInvoices.ClientColumn(c, (x: NClient) => x.name),
                               NodeInvoices.ClientColumn(c, (x: NClient) => x.email),
                               NodeInvoices.ClientColumn(c, (x: NClient) => x.address));
      Ok(EstimateWithItems(view, ChildrenOf(db.estimateItems, id)))
  }

  // ---------------------------------------------------------------------------
  // Create, update, delete.

  /** The body of `POST` and `PUT /api/estimates`. */
  datatype EstimateInput = EstimateInput(
    clientId: Option<int>, status: Option<string>, expiryDate: Option<int>, charges: Charges,
    total: Option<real>, items: Option<seq<ItemInput>>)

  function RequestItems(input: EstimateInput): seq<ItemInput>
  {
    if input.items.Some? then input.items.value else []
  }

  /** The row the create handler inserts: `status || 'draft'`, `currency || 'USD'`. */
  function NewEstimate(id: int, user: int, number: string, input: EstimateInput, today: int): (e: NEstimate)
    ensures e.userId == user && e.estimateNumber == number && e.convertedTo.None?
    ensures e.status == (if TruthyText(input.status) then input.status else Some("draft"))
    ensures e.charges.currency == (if TruthyText(input.charges.currency) then input.charges.currency else Some("USD"))
    ensures e.charges.(currency := input.charges.currency) == input.charges
  {
    NEstimate(id, user, input.clientId, number, Some(TextOr(input.status, "draft")), input.expiryDate, input.total,
              input.charges.(currency := Some(TextOr(input.charges.currency, "USD"))), None, today, today)
  }

  /** Writes a new estimate, appends its items and one activity row. */
  method CommitNewEstimate(db: NodeDatabase, row: NEstimate, lines: seq<LineItem>, inputs: seq<ItemInput>, entry: Activity)
    requires db.Valid() && row.id !in db.estimates
    requires LinesInOrder(lines, row.id, inputs)
    modifies db`estimates, db`estimateItems, db`activity
    ensures db.Valid()
    ensures db.estimates == old(db.estimates)[row.id := row] && db.activity == old(db.activity) + [entry]
    ensures db.estimateItems == old(db.estimateItems) + ChildrenOf(db.estimateItems, row.id)
    ensures LinesInOrder(ChildrenOf(db.estimateItems, row.id), row.id, inputs)
  {
    LinesBelongTo(lines, row.id, inputs);
    assert forall x :: x in db.estimateItems ==> x.parentId != row.id;
    AppendedReadBack(db.estimateItems, row.id, lines, inputs);
    db.estimates := db.estimates[row.id := row];
    db.estimateItems := db.estimateItems + lines;
    db.activity := db.activity + [entry];
  }

  /**
   * `POST /api/estimates`. Statements: 0 BEGIN, 1 and 2 the numbering
   * queries, 3 insert the estimate, 4 + k insert item k, then the activity row
   * and COMMIT. Any failure answers 500 and rolls back.
   */
  method CreateEstimate(db: NodeDatabase, user: int, input: EstimateInput, today: int, fault: Option<nat>)
    returns (r: Outcome<NEstimate>)
    requires db.Valid()
    modifies db`estimates, db`estimateItems, db`activity
    ensures db.Valid()
    ensures Aborts(fault, |RequestItems(input)| + 6) ==>
              (r == Fail(500, DbError) && db.estimates == old(db.estimates)
               && db.estimateItems == old(db.estimateItems) && db.activity == old(db.activity))
    ensures !Aborts(fault, |RequestItems(input)| + 6) ==>
              (r.Ok? && r.value.id !in old(db.estimates)
               && r.value == NewEstimate(r.value.id, user, old(NodeNumbering.NextEstimateNumber(db, user)), input, today)
               && db.estimates == old(db.estimates)[r.value.id := r.value]
               && db.estimateItems == old(db.estimateItems) + ChildrenOf(db.estimateItems, r.value.id)
               && LinesInOrder(ChildrenOf(db.estimateItems, r.value.id), r.value.id, RequestItems(input))
               && |db.activity| == |old(db.activity)| + 1 && db.activity[..|old(db.activity)|] == old(db.activity)
               && var a := db.activity[|old(db.activity)|];
                  a.userId == user && a.action == "created" && a.entityType == "estimate"
                  && a.entityId == r.value.id && a.details == EstimateCreated(r.value.estimateNumber))
  {
    if Aborts(fault, 4) {
      return Fail(500, DbError);
    }
    var number := NodeNumbering.NextEstimateNumber(db, user);
    var row := NewEstimate(Tables.NextId(db.estimates.Keys), user, number, input, today);
    var n := |RequestItems(input)|;
    var lines, aborted := InsertLines(db.estimateItems, row.id, RequestItems(input), fault, 4);
    if aborted || Aborts(fault, n + 6) {
      return Fail(500, DbError);
    }
    var entry := Activity(Tables.NextId(ActivityIds(db.activity)), user, "created", "estimate", row.id, EstimateCreated(number));
    CommitNewEstimate(db, row, lines, RequestItems(input), entry);
    r := Ok(row);
  }

  /**
   * The ownership and conversion check the update and convert handlers start
   * with: 404 for another user's or a missing estimate, 400 (with the
   * handler's own message) for a converted one.
   */
  function Check(db: NodeDatabase, user: int, id: int, convertedMessage: string): (r: Outcome<NEstimate>)
    reads db
    ensures r.Fail? && r.status == 404 <==> !Owns(db, user, id)
    ensures r.Fail? && r.status == 400 <==> Owns(db, user, id) && db.estimates[id].status == Some(Converted)
    ensures r.Fail? ==> r.status == 404 || r == Fail(400, convertedMessage)
    ensures r.Ok? ==> r.value == db.estimates[id]
  {
    if !Owns(db, user, id) then Fail(404, EstimateNotFound)
    else if db.estimates[id].status == Some(Converted) then Fail(400, convertedMessage)
    else Ok(db.estimates[id])
  }

  /** The row the update leaves: every body column as sent, no defaults, a fresh `updated_at`. */
  function RevisedEstimate(e: NEstimate, input: EstimateInput, today: int): NEstimate
  {
    e.(clientId := input.clientId, status := input.status, expiryDate := input.expiryDate,
       charges := input.charges, total := input.total, updatedAt := today)
  }

  /** Writes an updated estimate row and its item table. */
  method CommitEstimate(db: NodeDatabase, row: NEstimate, items: seq<LineItem>)
    requires db.Valid() && row.id in db.estimates
    requires forall x :: x in items ==> x.parentId in db.estimates
    modifies db`estimates, db`estimateItems
    ensures db.Valid()
    ensures db.estimates == old(db.estimates)[row.id := row] && db.estimateItems == items
  {
    db.estimates := db.estimates[row.id := row];
    db.estimateItems := items;
  }

  /**
   * `PUT /api/estimates/:id`. Statements: 0 BEGIN, 1 the check, 2 the update;
   * when `items` is sent, 3 delete the items and 4 + k insert item k; then
   * COMMIT. A converted estimate cannot be edited.
   */
  method UpdateEstimate(db: NodeDatabase, user: int, id: int, input: EstimateInput, today: int, fault: Option<nat>)
    returns (r: Outcome<NEstimate>)
    requires db.Valid()
    modifies db`estimates, db`estimateItems
    ensures db.Valid()
    ensures r.Fail? ==> db.estimates == old(db.estimates) && db.estimateItems == old(db.estimateItems)
    ensures Aborts(fault, 2) ==> r == Fail(500, DbError)
    ensures !Aborts(fault, 2) && old(Check(db, user, id, CannotEditConverted)).Fail? ==>
              r == Fail(old(Check(db, user, id, CannotEditConverted)).status, old(Check(db, user, id, CannotEditConverted)).message)
    ensures r.Ok? <==> old(Check(db, user, id, CannotEditConverted)).Ok?
                       && !Aborts(fault, if input.items.Some? then |input.items.value| + 5 else 4)
    ensures r.Ok? ==> r.value == RevisedEstimate(old(db.estimates[id]), input, today)
                      && db.estimates == old(db.estimates)[id := r.value]
    ensures r.Ok? && input.items.None? ==> db.estimateItems == old(db.estimateItems)
    ensures r.Ok? && input.items.Some? ==>
              (db.estimateItems == ChildrenNotOf(old(db.estimateItems), id) + ChildrenOf(db.estimateItems, id)
               && LinesInOrder(ChildrenOf(db.estimateItems, id), id, input.items.value))
  {
    if Aborts(fault, 2) {
      return Fail(500, DbError);
    }
    var check := Check(db, user, id, CannotEditConverted);
    if check.Fail? {
      return Fail(check.status, check.message);
    }
    if Aborts(fault, 4) {
      return Fail(500, DbError);
    }
    var row := RevisedEstimate(db.estimates[id], input, today);
    assert row.id == id;
    if input.items.None? {
      CommitEstimate(db, row, db.estimateItems);
      return Ok(row);
    }
    r := ReplaceEstimateItems(db, row, input.items.value, fault);
  }

  /** Statements 3 to `4 + |inputs|` of the update: replace the estimate's items, then COMMIT with the updated row. */
  method ReplaceEstimateItems(db: NodeDatabase, row: NEstimate, inputs: seq<ItemInput>, fault: Option<nat>)
    returns (r: Outcome<NEstimate>)
    requires db.Valid() && row.id in db.estimates && !Aborts(fault, 4)
    modifies db`estimates, db`estimateItems
    ensures db.Valid()
    ensures Aborts(fault, |inputs| + 5) ==>
              r == Fail(500, DbError) && db.estimates == old(db.estimates) && db.estimateItems == old(db.estimateItems)
    ensures !Aborts(fault, |inputs| + 5) ==>
              r == Ok(row) && db.estimates == old(db.estimates)[row.id := row]
              && db.estimateItems == ChildrenNotOf(old(db.estimateItems), row.id) + ChildrenOf(db.estimateItems, row.id)
              && LinesInOrder(ChildrenOf(db.estimateItems, row.id), row.id, inputs)
  {
    var base := ChildrenNotOf(db.estimateItems, row.id);
    var lines, aborted := InsertLines(base, row.id, inputs, fault, 4);
    InsertionsAbort(fault, 4, |inputs|, aborted);
    if aborted || fault == Some(4 + |inputs|) {
      return Fail(500, DbError);
    }
    ReplacedParents(db.estimateItems, row.id, lines, inputs, db.estimates);
    ReplacedReadBack(db.estimateItems, row.id, lines, inputs);
    CommitEstimate(db, row, base + lines);
    r := Ok(row);
  }

  /** `DELETE /api/estimates/:id`: the user's estimate and its items, or 404 when nothing was deleted. */
  method DeleteEstimate(db: NodeDatabase, user: int, id: int, fault: bool) returns (r: Outcome<string>)
    requires db.Valid()
    modifies db`estimates, db`estimateItems
    ensures db.Valid()
    ensures fault ==> r == Fail(500, DbError)
    ensures !fault && !old(Owns(db, user, id)) ==> r == Fail(404, EstimateNotFound)
    ensures r.Ok? <==> !fault && old(Owns(db, user, id))
    ensures r.Ok? ==> r.value == "Estimate deleted"
    ensures r.Fail? ==> db.estimates == old(db.estimates) && db.estimateItems == old(db.estimateItems)
    ensures r.Ok? ==> db.estimates == old(db.estimates) - {id} && db.estimateItems == ChildrenNotOf(old(db.estimateItems), id)
  {
    if fault {
      return Fail(500, DbError);
    }
    if !Owns(db, user, id) {
      return Fail(404, EstimateNotFound);
    }
    db.estimates := db.estimates - {id};
    db.estimateItems := ChildrenNotOf(db.estimateItems, id);
    return Ok("Estimate deleted");
  }

  // ---------------------------------------------------------------------------
  // Conversion.

  /** The answer to a conversion. */
  datatype Conversion = Conversion(message: string, invoiceId: int, invoiceNumber: string)

  /** The invoice a conversion inserts: a draft numbered like any invoice, carrying the estimate's money and text. */
  function ConvertedInvoice(id: int, e: NEstimate, number: string, today: int): (i: NInvoice)
    ensures i.userId == Some(e.userId) && i.clientId == e.clientId && i.status == Some("draft")
    ensures i.total == e.total && i.charges == e.charges && i.paidAmount == 0.0
    ensures i.dueDate == Some(today + DueInDays)
  {
    NInvoice(id, Some(e.userId), e.clientId, Some(number), Some("draft"), today, Some(today + DueInDays),
             e.total, DefaultPaidAmount, e.charges, today)
  }

  /** The three item columns of each estimate item, in order. */
  function InputsOf(items: seq<LineItem>): (inputs: seq<ItemInput>)
    ensures |inputs| == |items| && forall k :: 0 <= k < |items| ==> inputs[k] == InputOf(items[k])
  {
    seq(|items|, k requires 0 <= k < |items| => InputOf(items[k]))
  }

  /** Marks the estimate converted to invoice `invoiceId`. */
  method MarkConverted(db: NodeDatabase, id: int, invoiceId: int, today: int)
    requires db.Valid() && id in db.estimates
    modifies db`estimates
    ensures db.Valid()
    ensures db.estimates == old(db.estimates)[id := old(db.estimates[id]).(status := Some(Converted), convertedTo := Some(invoiceId), updatedAt := today)]
  {
    db.estimates := db.estimates[id := db.estimates[id].(status := Some(Converted), convertedTo := Some(invoiceId), updatedAt := today)];
  }

  /**
   * `POST /api/estimates/:id/convert`. Statements: 0 BEGIN, 1 read the
   * estimate (then the check), 2 read its items, 3 and 4 the numbering
   * queries, 5 insert the invoice, 6 + k copy item k, then mark the estimate
   * converted and COMMIT.
   */
  method ConvertEstimate(db: NodeDatabase, user: int, id: int, today: int, fault: Option<nat>)
    returns (r: Outcome<Conversion>)
    requires db.Valid()
    modifies db`estimates, db`invoices, db`invoiceItems
    ensures db.Valid()
    ensures r.Fail? ==> db.estimates == old(db.estimates) && db.invoices == old(db.invoices) && db.invoiceItems == old(db.invoiceItems)
    ensures Aborts(fault, 2) ==> r == Fail(500, DbError)
    ensures !Aborts(fault, 2) && old(Check(db, user, id, AlreadyConverted)).Fail? ==>
              r == Fail(old(Check(db, user, id, AlreadyConverted)).status, old(Check(db, user, id, AlreadyConverted)).message)
    ensures r.Ok? <==> old(Check(db, user, id, AlreadyConverted)).Ok?
                       && !Aborts(fault, |old(ChildrenOf(db.estimateItems, id))| + 8)
    ensures r.Ok? ==>
              (r.value.message == ConvertedMessage && r.value.invoiceId !in old(db.invoices)
               && r.value.invoiceNumber == old(NodeNumbering.NextInvoiceNumber(db, user))
               && db.invoices == old(db.invoices)[r.value.invoiceId := ConvertedInvoice(r.value.invoiceId, old(db.estimates[id]), r.value.invoiceNumber, today)]
               && db.invoiceItems == old(db.invoiceItems) + ChildrenOf(db.invoiceItems, r.value.invoiceId)
               && LinesInOrder(ChildrenOf(db.invoiceItems, r.value.invoiceId), r.value.invoiceId, InputsOf(old(ChildrenOf(db.estimateItems, id))))
               && db.estimates == old(db.estimates)[id := old(db.estimates[id]).(status := Some(Converted), convertedTo := Some(r.value.invoiceId), updatedAt := today)])
  {
    if Aborts(fault, 2) {
      return Fail(500, DbError);
    }
    var check := Check(db, user, id, AlreadyConverted);
    if check.Fail? {
      return Fail(check.status, check.message);
    }
    var source := ChildrenOf(db.estimateItems, id);
    var m := |source|;
    if Aborts(fault, 6) {
      return Fail(500, DbError);
    }
    var number := NodeNumbering.NextInvoiceNumber(db, user);
    var invoice := ConvertedInvoice(Tables.NextId(db.invoices.Keys), check.value, number, today);
    var lines, aborted := InsertLines(db.invoiceItems, invoice.id, InputsOf(source), fault, 6);
    if aborted || Aborts(fault, m + 8) {
      return Fail(500, DbError);
    }
    CommitConversion(db, id, invoice, lines, InputsOf(source), today);
    r := Ok(Conversion(ConvertedMessage, invoice.id, number));
  }

  /** The writes of a conversion that reached COMMIT. */
  method CommitConversion(db: NodeDatabase, id: int, invoice: NInvoice, lines: seq<LineItem>, inputs: seq<ItemInput>, today: int)
    requires db.Valid() && id in db.estimates && invoice.id !in db.invoices
    requires LinesInOrder(lines, invoice.id, inputs)
    modifies db`estimates, db`invoices, db`invoiceItems
    ensures db.Valid()
    ensures db.invoices == old(db.invoices)[invoice.id := invoice]
    ensures db.invoiceItems == old(db.invoiceItems) + ChildrenOf(db.invoiceItems, invoice.id)
    ensures LinesInOrder(ChildrenOf(db.invoiceItems, invoice.id), invoice.id, inputs)
    ensures db.estimates == old(db.estimates)[id := old(db.estimates[id]).(status := Some(Converted), convertedTo := Some(invoice.id), updatedAt := today)]
  {
    NodeInvoices.CommitNewInvoice(db, invoice, lines, inputs);
    MarkConverted(db, id, invoice.id, today);
  }

  /** Once converted, an estimate can be neither edited nor converted again. */
  lemma ConvertedIsFinal(db: NodeDatabase, user: int, id: int)
    requires Owns(db, user, id) && db.estimates[id].status == Some(Converted)
    ensures Check(db, user, id, CannotEditConverted) == Fail(400, CannotEditConverted)
    ensures Check(db, user, id, AlreadyConverted) == Fail(400, AlreadyConverted)
  {
  }
}
