/**
 * server/index.js: the unauthenticated client, product and invoice handlers.
 * None of them filters by owner: the owner is whatever `user_id` the request
 * body carries, and reads, updates and deletes act on any row with the id.
 * The invoice create and update handlers run inside BEGIN/COMMIT and roll
 * back on any error; the others are single statements.
 */
module NodeInvoices {
  import opened Wrappers
  import Tables
  import opened NodeDb

  const InvoiceNotFound: string := "Invoice not found"
  const NotesRequired: string := "Notes are required"

  // ---------------------------------------------------------------------------
  // Clients and products.

  /** `ORDER BY name ASC` on clients. */
  predicate ClientNameFirst(a: NClient, b: NClient) { Tables.TextAscending(a.name, b.name) }

  /** `SELECT * FROM clients ORDER BY name ASC`: every client of every user, by name. */
  function ListClients(db: NodeDatabase): (rows: seq<NClient>)
    reads db
    ensures forall c :: c in rows <==> c in db.clients.Values
    ensures forall i, j :: 0 <= i < j < |rows| ==> Tables.TextAscending(rows[i].name, rows[j].name)
  {
    var all := Tables.Select(db.clients, (c: NClient) => true);
    Tables.TextAscendingPreorder(all, (c: NClient) => c.name, ClientNameFirst);
    Tables.OrderBy(all, ClientNameFirst)
  }

  /** `POST /api/clients`: the four body columns, the others NULL. */
  method CreateClient(db: NodeDatabase, userId: Option<int>, name: Option<string>, email: Option<string>,
                      address: Option<string>, fault: bool) returns (r: Outcome<NClient>)
    requires db.Valid()
    modifies db`clients
    ensures db.Valid()
    ensures fault ==> r == Fail(500, DbError) && db.clients == old(db.clients)
    ensures !fault ==> (r.Ok? && r.value.id !in old(db.clients)
              && r.value == NClient(r.value.id, userId, name, email, None, address, None, None)
              && db.clients == old(db.clients)[r.value.id := r.value])
  {
    if fault {
      return Fail(500, DbError);
    }
    var c := NClient(Tables.NextId(db.clients.Keys), userId, name, email, None, address, None, None);
    db.clients := db.clients[c.id := c];
    return Ok(c);
  }

  /**
   * `PUT /api/clients/:id`: name, email and address of the row with that id,
   * whoever owns it; with no such row the answer is an empty body (`None`).
   */
  method UpdateClient(db: NodeDatabase, id: int, name: Option<string>, email: Option<string>,
                      address: Option<string>, fault: bool) returns (r: Outcome<Option<NClient>>)
    requires db.Valid()
    modifies db`clients
    ensures db.Valid()
    ensures fault ==> r == Fail(500, DbError) && db.clients == old(db.clients)
    ensures !fault && id !in old(db.clients) ==> r == Ok(None) && db.clients == old(db.clients)
    ensures !fault && id in old(db.clients) ==>
              r == Ok(Some(old(db.clients[id]).(name := name, email := email, address := address)))
              && db.clients == old(db.clients)[id := r.value.value]
  {
    if fault {
      return Fail(500, DbError);
    }
    if id !in db.clients {
      return Ok(None);
    }
    var c := db.clients[id].(name := name, email := email, address := address);
    db.clients := db.clients[id := c];
    return Ok(Some(c));
  }

  /** `DELETE /api/clients/:id`: the same answer whether or not the row existed. */
  method DeleteClient(db: NodeDatabase, id: int, fault: bool) returns (r: Outcome<string>)
    requires db.Valid()
    modifies db`clients
    ensures db.Valid()
    ensures fault ==> r == Fail(500, DbError) && db.clients == old(db.clients)
    ensures !fault ==> r == Ok("Client deleted") && db.clients == old(db.clients) - {id}
  {
    if fault {
      return Fail(500, DbError);
    }
    db.clients := db.clients - {id};
    return Ok("Client deleted");
  }

  /** `ORDER BY name ASC` on products. */
  predicate ProductNameFirst(a: NProduct, b: NProduct) { Tables.TextAscending(a.name, b.name) }

  /** `SELECT * FROM products ORDER BY name ASC`: every product of every user, by name. */
  function ListProducts(db: NodeDatabase): (rows: seq<NProduct>)
    reads db
    ensures forall p :: p in rows <==> p in db.products.Values
    ensures forall i, j :: 0 <= i < j < |rows| ==> Tables.TextAscending(rows[i].name, rows[j].name)
  {
    var all := Tables.Select(db.products, (p: NProduct) => true);
    Tables.TextAscendingPreorder(all, (p: NProduct) => p.name, ProductNameFirst);
    Tables.OrderBy(all, ProductNameFirst)
  }

  /** `POST /api/products`: user, name, unit price and description from the body. */
  method CreateProduct(db: NodeDatabase, userId: Option<int>, name: Option<string>, unitPrice: Option<real>,
                       description: Option<string>, fault: bool) returns (r: Outcome<NProduct>)
    requires db.Valid()
    modifies db`products
    ensures db.Valid()
    ensures fault ==> r == Fail(500, DbError) && db.products == old(db.products)
    ensures !fault ==> (r.Ok? && r.value.id !in old(db.products)
              && r.value == NProduct(r.value.id, userId, name, unitPrice, description, None)
              && db.products == old(db.products)[r.value.id := r.value])
  {
    if fault {
      return Fail(500, DbError);
    }
    var p := NProduct(Tables.NextId(db.products.Keys), userId, name, unitPrice, description, None);
    db.products := db.products[p.id := p];
    return Ok(p);
  }

  /** `PUT /api/products/:id`, on any owner's row; an empty body when there is none. */
  method UpdateProduct(db: NodeDatabase, id: int, name: Option<string>, unitPrice: Option<real>,
                       description: Option<string>, fault: bool) returns (r: Outcome<Option<NProduct>>)
    requires db.Valid()
    modifies db`products
    ensures db.Valid()
    ensures fault ==> r == Fail(500, DbError) && db.products == old(db.products)
    ensures !fault && id !in old(db.products) ==> r == Ok(None) && db.products == old(db.products)
    ensures !fault && id in old(db.products) ==>
              r == Ok(Some(old(db.products[id]).(name := name, unitPrice := unitPrice, description := description)))
              && db.products == old(db.products)[id := r.value.value]
  {
    if fault {
      return Fail(500, DbError);
    }
    if id !in db.products {
      return Ok(None);
    }
    var p := db.products[id].(name := name, unitPrice := unitPrice, description := description);
    db.products := db.products[id := p];
    return Ok(Some(p));
  }

  /** `DELETE /api/products/:id`: the same answer whether or not the row existed. */
  method DeleteProduct(db: NodeDatabase, id: int, fault: bool) returns (r: Outcome<string>)
    requires db.Valid()
    modifies db`products
    ensures db.Valid()
    ensures fault ==> r == Fail(500, DbError) && db.products == old(db.products)
    ensures !fault ==> r == Ok("Product deleted") && db.products == old(db.products) - {id}
  {
    if fault {
      return Fail(500, DbError);
    }
    db.products := db.products - {id};
    return Ok("Product deleted");
  }

  // ---------------------------------------------------------------------------
  // Invoice reads.

  /** An invoice with the client columns a `LEFT JOIN clients` adds. */
  datatype InvoiceView = InvoiceView(row: NInvoice, clientName: Option<string>, clientEmail: Option<string>, clientAddress: Option<string>)

  datatype InvoiceWithItems = InvoiceWithItems(invoice: InvoiceView, items: seq<LineItem>)

  /** The client row `LEFT JOIN clients c ON i.client_id = c.id` finds, if any. */
  function JoinedClient(db: NodeDatabase, clientId: Option<int>): (c: Option<NClient>)
    reads db
    ensures c.Some? <==> clientId.Some? && clientId.value in db.clients
    ensures c.Some? ==> c.value == db.clients[clientId.value]
  {
    if clientId.Some? && clientId.value in db.clients then Some(db.clients[clientId.value]) else None
  }

  /** A client column of the join: NULL when no client matched. */
  function ClientColumn(c: Option<NClient>, column: NClient -> Option<string>): Option<string>
  {
    if c.Some? then column(c.value) else None
  }

  function FullView(db: NodeDatabase, row: NInvoice): InvoiceView
    reads db
  {
    var c := JoinedClient(db, row.clientId);
    InvoiceView(row, ClientColumn(c, (x: NClient) => x.name), ClientColumn(c, (x: NClient) => x.email),
                ClientColumn(c, (x: NClient) => x.address))
  }

  /**
   * `ORDER BY i.created_at DESC`. `createdAt` holds the day only; within a
   * day the row inserted later, which holds the higher serial id, comes first.
   */
  predicate NewestFirst(a: NInvoice, b: NInvoice)
  {
    a.createdAt > b.createdAt || (a.createdAt == b.createdAt && a.id >= b.id)
  }

  /** Any two rows compare, and the comparison is transitive. */
  lemma NewestFirstOrders(rows: seq<NInvoice>)
    ensures Tables.TotalPreorder(rows, NewestFirst)
  {
  }

  /** `GET /api/invoices`: every invoice of every user, newest first, with its client's name. */
  function ListInvoices(db: NodeDatabase): (views: seq<InvoiceView>)
    reads db
    ensures forall v :: v in views ==> v.row in db.invoices.Values && v == NameView(db, v.row)
    ensures forall id :: id in db.invoices ==> NameView(db, db.invoices[id]) in views
    ensures forall i, j :: 0 <= i < j < |views| ==> NewestFirst(views[i].row, views[j].row)
  {
    var all := Tables.Select(db.invoices, (i: NInvoice) => true);
    NewestFirstOrders(all);
    var rows := Tables.OrderBy(all, NewestFirst);
    NameViews(db, rows)
  }

  /** The list's join selects the client's name only. */
  function NameView(db: NodeDatabase, row: NInvoice): InvoiceView
    reads db
  {
    InvoiceView(row, ClientColumn(JoinedClient(db, row.clientId), (x: NClient) => x.name), None, None)
  }

  function NameViews(db: NodeDatabase, rows: seq<NInvoice>): (views: seq<InvoiceView>)
    reads db
    ensures |views| == |rows| && forall i :: 0 <= i < |rows| ==> views[i] == NameView(db, rows[i])
    ensures forall r :: r in rows ==> NameView(db, r) in views
    ensures forall v :: v in views ==> v.row in rows && v == NameView(db, v.row)
  {
    if rows == [] then [] else [NameView(db, rows[0])] + NameViews(db, rows[1..])
  }

  /** `GET /api/invoices/:id`: any user's invoice with that id and its items, or 404. */
  function GetInvoice(db: NodeDatabase, id: int): (r: Outcome<InvoiceWithItems>)
    reads db
    ensures r.Ok? <==> id in db.invoices
    ensures r.Fail? ==> r == Fail(404, InvoiceNotFound)
    ensures r.Ok? ==> r.value.invoice == FullView(db, db.invoices[id])
    ensures r.Ok? ==> forall x :: x in r.value.items <==> x in db.invoiceItems && x.parentId == id
  {
    if id !in db.invoices then Fail(404, InvoiceNotFound)
    else Ok(InvoiceWithItems(FullView(db, db.invoices[id]), ChildrenOf(db.invoiceItems, id)))
  }

  // ---------------------------------------------------------------------------
  // Invoice writes.

  /** The body of `POST` and `PUT /api/invoices`. */
  datatype InvoiceInput = InvoiceInput(
    userId: Option<int>, clientId: Option<int>, status: Option<string>, dueDate: Option<int>,
    total: Option<real>, items: Option<seq<ItemInput>>)

  /** The items the create loop inserts: none when `items` is missing or empty. */
  function CreateItems(input: InvoiceInput): seq<ItemInput>
  {
    if input.items.Some? then input.items.value else []
  }

  /** The row `POST /api/invoices` inserts: `status || 'draft'`, `total || 0`. */
  function NewInvoice(id: int, input: InvoiceInput, today: int): (row: NInvoice)
    ensures row.status.Some? && row.total.Some?
    ensures TruthyText(input.status) ==> row.status == input.status
    ensures !TruthyText(input.status) ==> row.status == Some("draft")
    ensures input.total.Some? && input.total.value != 0.0 ==> row.total == input.total
    ensures input.total.None? || input.total.value == 0.0 ==> row.total == Some(0.0)
  {
    NInvoice(id, input.userId, input.clientId, None, Some(TextOr(input.status, "draft")), today,
             input.dueDate, Some(NumberOr(input.total, 0.0)), DefaultPaidAmount, NoCharges, today)
  }

  /** The row `PUT /api/invoices/:id` leaves: the four body columns as sent, no defaults. */
  function RevisedInvoice(row: NInvoice, input: InvoiceInput): NInvoice
  {
    row.(clientId := input.clientId, status := input.status, dueDate := input.dueDate, total := input.total)
  }

  /** Writes an invoice row and its item table, as a commit does. */
  method CommitInvoice(db: NodeDatabase, row: NInvoice, items: seq<LineItem>)
    requires db.Valid()
    requires forall x :: x in items ==> x.parentId in db.invoices || x.parentId == row.id
    modifies db`invoices, db`invoiceItems
    ensures db.Valid()
    ensures db.invoices == old(db.invoices)[row.id := row] && db.invoiceItems == items
  {
    db.invoices := db.invoices[row.id := row];
    db.invoiceItems := items;
  }

  /**
   * `POST /api/invoices`. Statements: 0 BEGIN, 1 insert the invoice, 2 + k
   * insert item k, then COMMIT. Any failure answers 500 and rolls back.
   */
  method CreateInvoice(db: NodeDatabase, input: InvoiceInput, today: int, fault: Option<nat>)
    returns (r: Outcome<NInvoice>)
    requires db.Valid()
    modifies db`invoices, db`invoiceItems
    ensures db.Valid()
    ensures Aborts(fault, |CreateItems(input)| + 3) ==>
              r == Fail(500, DbError) && db.invoices == old(db.invoices) && db.invoiceItems == old(db.invoiceItems)
    ensures !Aborts(fault, |CreateItems(input)| + 3) ==>
              r.Ok? && r.value.id !in old(db.invoices) && r.value == NewInvoice(r.value.id, input, today)
              && db.invoices == old(db.invoices)[r.value.id := r.value]
              && db.invoiceItems == old(db.invoiceItems) + ChildrenOf(db.invoiceItems, r.value.id)
              && LinesInOrder(ChildrenOf(db.invoiceItems, r.value.id), r.value.id, CreateItems(input))
  {
    if Aborts(fault, 2) {
      return Fail(500, DbError);
    }
    var id := Tables.NextId(db.invoices.Keys);
    var row := NewInvoice(id, input, today);
    var lines, aborted := InsertLines(db.invoiceItems, id, CreateItems(input), fault, 2);
    if aborted || Aborts(fault, |CreateItems(input)| + 3) {
      return Fail(500, DbError);
    }
    CommitNewInvoice(db, row, lines, CreateItems(input));
    r := Ok(row);
  }

  /** Writes a new invoice and appends its items, which read back in order. */
  method CommitNewInvoice(db: NodeDatabase, row: NInvoice, lines: seq<LineItem>, inputs: seq<ItemInput>)
    requires db.Valid() && row.id !in db.invoices
    requires LinesInOrder(lines, row.id, inputs)
    modifies db`invoices, db`invoiceItems
    ensures db.Valid()
    ensures db.invoices == old(db.invoices)[row.id := row]
    ensures db.invoiceItems == old(db.invoiceItems) + ChildrenOf(db.invoiceItems, row.id)
    ensures LinesInOrder(ChildrenOf(db.invoiceItems, row.id), row.id, inputs)
  {
    LinesBelongTo(lines, row.id, inputs);
    assert forall x :: x in db.invoiceItems ==> x.parentId != row.id;
    AppendedReadBack(db.invoiceItems, row.id, lines, inputs);
    CommitInvoice(db, row, db.invoiceItems + lines);
  }

  /**
   * `PUT /api/invoices/:id`. Statements: 0 BEGIN, 1 the update (of any
   * owner's row; none when the id is unknown); when `items` is sent, 2 delete
   * the invoice's items and 3 + k insert item k; then COMMIT. An item insert for
   * an unknown invoice violates the foreign key. Without `items` the existing
   * items stay as they are.
   */
  method UpdateInvoice(db: NodeDatabase, id: int, input: InvoiceInput, fault: Option<nat>)
    returns (r: Outcome<Option<NInvoice>>)
    requires db.Valid()
    modifies db`invoices, db`invoiceItems
    ensures db.Valid()
    ensures r.Fail? ==> r.status == 500 && db.invoices == old(db.invoices) && db.invoiceItems == old(db.invoiceItems)
    ensures input.items.None? ==> db.invoiceItems == old(db.invoiceItems)
    ensures input.items.None? ==> (r.Ok? <==> !Aborts(fault, 3))
    ensures input.items.Some? && id in old(db.invoices) ==> (r.Ok? <==> !Aborts(fault, |input.items.value| + 4))
    ensures input.items.Some? && id !in old(db.invoices) && input.items.value != [] ==> r.Fail?
    ensures r.Ok? && id !in old(db.invoices) ==>
              r.value.None? && db.invoices == old(db.invoices) && db.invoiceItems == old(db.invoiceItems)
    ensures r.Ok? && id in old(db.invoices) ==>
              r.value == Some(RevisedInvoice(old(db.invoices[id]), input))
              && db.invoices == old(db.invoices)[id := r.value.value]
    ensures r.Ok? && id in old(db.invoices) && input.items.Some? ==>
              db.invoiceItems == ChildrenNotOf(old(db.invoiceItems), id) + ChildrenOf(db.invoiceItems, id)
              && LinesInOrder(ChildrenOf(db.invoiceItems, id), id, input.items.value)
  {
    if fault == Some(0) || fault == Some(1) {
      return Fail(500, DbError);
    }
    var known := id in db.invoices;
    if input.items.None? {
      if fault == Some(2) {
        return Fail(500, DbError);
      }
      if known {
        var row := RevisedInvoice(db.invoices[id], input);
        CommitInvoice(db, row, db.invoiceItems);
        return Ok(Some(row));
      }
      return Ok(None);
    }
    var inputs := input.items.value;
    if fault == Some(2) {
      return Fail(500, DbError);
    }
    if !known {
      if inputs != [] {
        // The first item insert references no invoice.
        return Fail(500, DbError);
      }
      if fault == Some(3) {
        return Fail(500, DbError);
      }
      return Ok(None);
    }
    var row := RevisedInvoice(db.invoices[id], input);
    assert row.id == id;
    var written := ReplaceInvoiceItems(db, row, inputs, fault);
    r := if written then Ok(Some(row)) else Fail(500, DbError);
  }

  /** Statements 2 to `3 + |inputs|` of the update: replace the invoice's items, then COMMIT with the updated row. */
  method ReplaceInvoiceItems(db: NodeDatabase, row: NInvoice, inputs: seq<ItemInput>, fault: Option<nat>)
    returns (written: bool)
    requires db.Valid() && row.id in db.invoices && !Aborts(fault, 3)
    modifies db`invoices, db`invoiceItems
    ensures db.Valid()
    ensures written <==> !Aborts(fault, |inputs| + 4)
    ensures !written ==> db.invoices == old(db.invoices) && db.invoiceItems == old(db.invoiceItems)
    ensures written ==>
              db.invoices == old(db.invoices)[row.id := row]
              && db.invoiceItems == ChildrenNotOf(old(db.invoiceItems), row.id) + ChildrenOf(db.invoiceItems, row.id)
              && LinesInOrder(ChildrenOf(db.invoiceItems, row.id), row.id, inputs)
  {
    var base := ChildrenNotOf(db.invoiceItems, row.id);
    var lines, aborted := InsertLines(base, row.id, inputs, fault, 3);
    InsertionsAbort(fault, 3, |inputs|, aborted);
    if aborted || fault == Some(3 + |inputs|) {
      return false;
    }
    ReplacedParents(db.invoiceItems, row.id, lines, inputs, db.invoices);
    ReplacedReadBack(db.invoiceItems, row.id, lines, inputs);
    CommitInvoice(db, row, base + lines);
    written := true;
  }

  /** With no item of `parent`, deleting its items changes nothing. */
  lemma {:induction false} ChildrenNotOfNone(items: seq<LineItem>, parent: int)
    requires forall x :: x in items ==> x.parentId != parent
    ensures ChildrenNotOf(items, parent) == items
  {
    if items != [] {
      assert items[0] in items;
      ChildrenNotOfNone(items[1..], parent);
      assert [items[0]] + items[1..] == items;
    }
  }

  /** The payments of other invoices, once `invoiceId`'s are cascaded away. */
  function PaymentsNotOf(payments: seq<Payment>, invoiceId: int): (r: seq<Payment>)
    ensures forall p :: p in r <==> p in payments && p.invoiceId != invoiceId
  {
    if payments == [] then []
    else (if payments[0].invoiceId != invoiceId then [payments[0]] else []) + PaymentsNotOf(payments[1..], invoiceId)
  }

  /** `DELETE /api/invoices/:id`: any owner's invoice, its items and payments cascading; the same answer either way. */
  method DeleteInvoice(db: NodeDatabase, id: int, fault: bool) returns (r: Outcome<string>)
    requires db.Valid()
    modifies db`invoices, db`invoiceItems, db`payments
    ensures db.Valid()
    ensures fault ==> r == Fail(500, DbError)
    ensures !fault ==> r == Ok("Invoice deleted")
    ensures fault ==> db.invoices == old(db.invoices) && db.invoiceItems == old(db.invoiceItems) && db.payments == old(db.payments)
    ensures !fault ==> (db.invoices == old(db.invoices) - {id}
              && db.invoiceItems == ChildrenNotOf(old(db.invoiceItems), id)
              && db.payments == PaymentsNotOf(old(db.payments), id))
    ensures !fault ==> GetInvoice(db, id) == Fail(404, InvoiceNotFound)
  {
    if fault {
      return Fail(500, DbError);
    }
    db.invoices := db.invoices - {id};
    db.invoiceItems := ChildrenNotOf(db.invoiceItems, id);
    db.payments := PaymentsNotOf(db.payments, id);
    return Ok("Invoice deleted");
  }

  /** The id the `emails` table gives its next row. */
  function NextEmailId(emails: seq<Email>): int
  {
    Tables.NextId(set x | x in emails :: x.id)
  }

  /** The HTML body stored for a sent invoice; `show` is the text the driver sends for the NUMERIC total (`null` when missing). */
  function EmailHtml(total: Option<real>, show: real -> string): string
  {
    "<p>Please find attached your invoice for " + (if total.Some? then show(total.value) else "null") + ".</p>"
  }

  /**
   * `POST /api/invoices/:id/send`, one statement at a time with no
   * transaction. Statements: 0 read the invoice (none is a 404), 1 read its
   * items, 2 render the PDF, 3 send the email, 4 insert the `emails` row,
   * 5 set the status to 'sent' whatever it was. A failure at 5 leaves the
   * `emails` row of statement 4 in place.
   */
  method SendInvoice(db: NodeDatabase, id: int, show: real -> string, fault: Option<nat>) returns (r: Outcome<string>)
    requires db.Valid()
    modifies db`invoices, db`emails
    ensures db.Valid()
    ensures fault == Some(0) ==> r == Fail(500, DbError)
    ensures fault != Some(0) && id !in old(db.invoices) ==> r == Fail(404, InvoiceNotFound)
    ensures id in old(db.invoices) && !Aborts(fault, 6) ==> r == Ok("Invoice sent successfully")
    ensures id in old(db.invoices) && Aborts(fault, 6) ==> r == Fail(500, DbError)
    ensures Aborts(fault, 5) || id !in old(db.invoices) ==> db.emails == old(db.emails)
    ensures !Aborts(fault, 5) && id in old(db.invoices) ==>
              db.emails == old(db.emails) + [Email(NextEmailId(old(db.emails)), id, "invoice", EmailHtml(old(db.invoices[id].total), show))]
    ensures r.Fail? ==> db.invoices == old(db.invoices)
    ensures r.Ok? ==> db.invoices == old(db.invoices)[id := old(db.invoices[id]).(status := Some("sent"))]
  {
    if fault == Some(0) {
      return Fail(500, DbError);
    }
    if id !in db.invoices {
      return Fail(404, InvoiceNotFound);
    }
    if Aborts(fault, 5) {
      return Fail(500, DbError);
    }
    r := RecordSent(db, id, EmailHtml(db.invoices[id].total, show), fault);
  }

  /** Statements 4 and 5 of the send: insert the `emails` row, then set the status to 'sent'. */
  method RecordSent(db: NodeDatabase, id: int, content: string, fault: Option<nat>) returns (r: Outcome<string>)
    requires db.Valid() && id in db.invoices && !Aborts(fault, 5)
    modifies db`invoices, db`emails
    ensures db.Valid()
    ensures db.emails == old(db.emails) + [Email(NextEmailId(old(db.emails)), id, "invoice", content)]
    ensures Aborts(fault, 6) ==> r == Fail(500, DbError) && db.invoices == old(db.invoices)
    ensures !Aborts(fault, 6) ==>
              r == Ok("Invoice sent successfully")
              && db.invoices == old(db.invoices)[id := old(db.invoices[id]).(status := Some("sent"))]
  {
    db.emails := db.emails + [Email(NextEmailId(db.emails), id, "invoice", content)];
    if Aborts(fault, 6) {
      return Fail(500, DbError);
    }
    var sent := db.invoices[id].(status := Some("sent"));
    assert sent.id == id;
    SetInvoice(db, sent);
    return Ok("Invoice sent successfully");
  }

  // ---------------------------------------------------------------------------
  // `POST /api/ai/describe-line-items`.

  const PromptHead: string := "Convert the following work description into invoice line items suitable for a client invoice.\n\nWork description:\n"
  const PromptTail: string := "\n\nReturn JSON in the following format:\n{\n  \"items\": [\n    {\n      \"description\": \"\",\n      \"quantity\": 1,\n      \"unit_price\": null\n    }\n  ]\n}"

  /** The user prompt sent to the model, or 400 when `notes` is falsy. */
  function DescribePrompt(notes: Option<string>): (r: Outcome<string>)
    ensures r.Fail? <==> !TruthyText(notes)
    ensures r.Fail? ==> r == Fail(400, NotesRequired)
    ensures r.Ok? ==> |r.value| == |PromptHead| + |notes.value| + |PromptTail|
                      && r.value[|PromptHead|..|PromptHead| + |notes.value|] == notes.value
  {
    if !TruthyText(notes) then Fail(400, NotesRequired)
    else
      var p := PromptHead + notes.value + PromptTail;
      assert p[|PromptHead|..|PromptHead| + |notes.value|] == notes.value;
      Ok(p)
  }

  /** The message of an exception the chat-completion call throws. */
  const AiError: string := "AI request failed"
  const UnparsableAnswer: string := "Failed to parse AI response as JSON"

  /** What the handler answers: the parsed JSON, an error, or 500 with the unparsable answer. */
  datatype DescribeReply<J> = Described(json: J) | Refused(status: int, error: string) | Unparsable(content: string)

  /**
   * The whole handler. `ask` is the chat-completion call on the user prompt:
   * the first choice's content, or None when the call throws. `parse` is
   * `JSON.parse`: None when it throws.
   */
  function Describe<J>(notes: Option<string>, ask: string -> Option<string>, parse: string -> Option<J>): (r: DescribeReply<J>)
    ensures !TruthyText(notes) <==> r == Refused(400, NotesRequired)
    ensures TruthyText(notes) ==>
              var answer := ask(DescribePrompt(notes).value);
              (answer.None? <==> r == Refused(500, AiError))
              && (answer.Some? && parse(answer.value).Some? ==> r == Described(parse(answer.value).value))
              && (answer.Some? ==> (parse(answer.value).None? <==> r == Unparsable(answer.value)))
  {
    var prompt := DescribePrompt(notes);
    if prompt.Fail? then Refused(prompt.status, prompt.message)
    else
      var answer := ask(prompt.value);
      if answer.None? then Refused(500, AiError)
      else
        var json := parse(answer.value);
        if json.None? then Unparsable(answer.value) else Described(json.value)
  }
}
