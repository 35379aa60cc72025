/**
 * The PostgreSQL tables the Node/Express server (server/) reads and writes.
 * Parent tables map a serial id to a row; child tables (the three item tables,
 * payments, password resets, sent emails, the activity log) are kept in
 * insertion order, which is the order a plain `SELECT` returns them.
 *
 * Columns are `Option` wherever the server writes a request value that may be
 * missing (JSON `undefined` becomes SQL NULL). Columns an `INSERT` leaves out
 * take the schema defaults named below.
 */
module NodeDb {
  import opened Wrappers
  import Tables

  /** `err.message` of any error the database raises; its text is not modelled. */
  const DbError: string := "database error"

  /** `paid_amount`'s column default, which every invoice insert relies on. */
  const DefaultPaidAmount: real := 0.0

  /** The money and text columns an estimate carries and a conversion copies to its invoice. */
  datatype Charges = Charges(
    subtotal: Option<real>, taxRate: Option<real>, taxAmount: Option<real>, discount: Option<real>,
    discountType: Option<string>, currency: Option<string>, notes: Option<string>, terms: Option<string>)

  /** The charges of an invoice inserted by a handler that does not write them. */
  const NoCharges: Charges := Charges(None, None, None, None, None, None, None, None)

  datatype NClient = NClient(
    id: int, userId: Option<int>, name: Option<string>, email: Option<string>, phone: Option<string>,
    address: Option<string>, paymentTerms: Option<int>, status: Option<string>)

  datatype NProduct = NProduct(
    id: int, userId: Option<int>, name: Option<string>, unitPrice: Option<real>,
    description: Option<string>, category: Option<string>)

  /** `issueDate` is the day of the insert (`DEFAULT CURRENT_DATE`). */
  datatype NInvoice = NInvoice(
    id: int, userId: Option<int>, clientId: Option<int>, invoiceNumber: Option<string>,
    status: Option<string>, issueDate: int, dueDate: Option<int>, total: Option<real>,
    paidAmount: real, charges: Charges, createdAt: int)

  /** A row of `invoice_items`, `estimate_items` or `recurring_invoice_items`; `parentId` is its owner row. */
  datatype LineItem = LineItem(id: int, parentId: int, description: Option<string>, quantity: Option<real>, unitPrice: Option<real>)

  /** An element of a request's `items` array. */
  datatype ItemInput = ItemInput(description: Option<string>, quantity: Option<real>, unitPrice: Option<real>)

  datatype NEstimate = NEstimate(
    id: int, userId: int, clientId: Option<int>, estimateNumber: string, status: Option<string>,
    expiryDate: Option<int>, total: Option<real>, charges: Charges, convertedTo: Option<int>,
    createdAt: int, updatedAt: int)

  datatype NRecurring = NRecurring(
    id: int, userId: int, clientId: Option<int>, interval: Option<string>, intervalCount: Option<int>,
    startDate: Option<int>, endDate: Option<int>, nextRun: Option<int>, lastRun: Option<int>,
    status: Option<string>, total: Option<real>, sendAutomatically: Option<bool>, createdAt: int, updatedAt: int)

  /** A row of `payment_transactions`; no handler writes its `status` column. */
  datatype Payment = Payment(
    id: int, invoiceId: int, amount: real, paymentDate: int, paymentMethod: Option<string>,
    reference: Option<string>, notes: Option<string>, createdBy: int, status: Option<string>)

  /** The sixteen columns of `company_settings` the PUT handler writes. */
  datatype SettingsFields = SettingsFields(
    companyName: Option<string>, companyEmail: Option<string>, companyPhone: Option<string>,
    companyAddress: Option<string>, companyWebsite: Option<string>, taxId: Option<string>,
    logoUrl: Option<string>, invoicePrefix: Option<string>, invoiceStartingNumber: Option<int>,
    estimatePrefix: Option<string>, estimateStartingNumber: Option<int>,
    defaultPaymentTerms: Option<int>, defaultTaxRate: Option<real>, defaultCurrency: Option<string>,
    defaultNotes: Option<string>, defaultTerms: Option<string>)

  datatype Settings = Settings(id: int, userId: int, fields: SettingsFields, updatedAt: int)

  datatype User = User(id: int, email: string, passwordHash: string)

  datatype PasswordReset = PasswordReset(id: int, userId: int, token: string, expiresAt: int)

  datatype Email = Email(id: int, invoiceId: int, kind: string, content: string)

  /** The JSON `details` of an activity row. */
  datatype ActivityDetails = EstimateCreated(estimateNumber: string) | PaymentRecorded(invoiceId: int, amount: real)

  datatype Activity = Activity(id: int, userId: int, action: string, entityType: string, entityId: int, details: ActivityDetails)

  predicate KeyedById<T>(m: map<int, T>, idOf: T -> int)
  {
    forall k :: k in m ==> idOf(m[k]) == k
  }

  class NodeDatabase {
    var clients: map<int, NClient>
    var products: map<int, NProduct>
    var invoices: map<int, NInvoice>
    var invoiceItems: seq<LineItem>
    var estimates: map<int, NEstimate>
    var estimateItems: seq<LineItem>
    var recurring: map<int, NRecurring>
    var recurringItems: seq<LineItem>
    var payments: seq<Payment>
    var settings: map<int, Settings>
    var users: map<int, User>
    var resets: seq<PasswordReset>
    var emails: seq<Email>
    var activity: seq<Activity>

    /**
     * Keys are the rows' ids, one settings row per user, one user per email,
     * and item and payment rows point at an existing parent (the foreign keys,
     * whose deletes cascade).
     */
    ghost predicate Valid()
      reads this`clients, this`products, this`invoices, this`invoiceItems, this`estimates, this`estimateItems
      reads this`recurring, this`recurringItems, this`payments, this`settings, this`users
    {
      KeyedById(clients, (c: NClient) => c.id)
      && KeyedById(products, (p: NProduct) => p.id)
      && KeyedById(invoices, (i: NInvoice) => i.id)
      && KeyedById(estimates, (e: NEstimate) => e.id)
      && KeyedById(recurring, (r: NRecurring) => r.id)
      && KeyedById(settings, (s: Settings) => s.id)
      && KeyedById(users, (u: User) => u.id)
      && (forall a, b :: a in settings && b in settings && settings[a].userId == settings[b].userId ==> a == b)
      && (forall a, b :: a in users && b in users && users[a].email == users[b].email ==> a == b)
      && (forall x :: x in invoiceItems ==> x.parentId in invoices)
      && (forall x :: x in estimateItems ==> x.parentId in estimates)
      && (forall x :: x in recurringItems ==> x.parentId in recurring)
      && (forall p :: p in payments ==> p.invoiceId in invoices)
    }

    constructor ()
      ensures Valid()
      ensures clients == map[] && products == map[] && invoices == map[] && invoiceItems == []
      ensures estimates == map[] && estimateItems == [] && recurring == map[] && recurringItems == []
      ensures payments == [] && settings == map[] && users == map[] && resets == [] && emails == [] && activity == []
    {
      clients, products, invoices, invoiceItems := map[], map[], map[], [];
      estimates, estimateItems, recurring, recurringItems := map[], [], map[], [];
      payments, settings, users, resets, emails, activity := [], map[], map[], [], [], [];
    }
  }

  /** `UPDATE invoices SET ... WHERE id = row.id` on an existing invoice: every reference to an invoice stays resolvable. */
  method SetInvoice(db: NodeDatabase, row: NInvoice)
    requires db.Valid() && row.id in db.invoices
    modifies db`invoices
    ensures db.Valid()
    ensures db.invoices == old(db.invoices)[row.id := row]
  {
    db.invoices := db.invoices[row.id := row];
    assert db.invoices.Keys == old(db.invoices).Keys;
  }

  // ---------------------------------------------------------------------------
  // Item tables.

  function LineIds(items: seq<LineItem>): set<int>
  {
    set i | 0 <= i < |items| :: items[i].id
  }

  /** The ids `activity_log`'s serial column has handed out. */
  function ActivityIds(rows: seq<Activity>): set<int>
  {
    set a | a in rows :: a.id
  }

  /** `SELECT * FROM ..._items WHERE ..._id = $1`, in table order. */
  function ChildrenOf(items: seq<LineItem>, parent: int): (r: seq<LineItem>)
    ensures forall x :: x in r <==> x in items && x.parentId == parent
  {
    if items == [] then []
    else (if items[0].parentId == parent then [items[0]] else []) + ChildrenOf(items[1..], parent)
  }

  /** The item table once `DELETE FROM ..._items WHERE ..._id = $1` has run. */
  function ChildrenNotOf(items: seq<LineItem>, parent: int): (r: seq<LineItem>)
    ensures forall x :: x in r <==> x in items && x.parentId != parent
  {
    if items == [] then []
    else (if items[0].parentId != parent then [items[0]] else []) + ChildrenNotOf(items[1..], parent)
  }

  /** The row `INSERT INTO ..._items (..._id, description, quantity, unit_price)` writes. */
  function LineFrom(id: int, parent: int, input: ItemInput): LineItem
  {
    LineItem(id, parent, input.description, input.quantity, input.unitPrice)
  }

  /** An estimate item copied verbatim to an invoice: the same three columns. */
  function InputOf(item: LineItem): ItemInput
  {
    ItemInput(item.description, item.quantity, item.unitPrice)
  }

  /** `lines[k]` is input `k` stored under `parent`, in request order. */
  predicate LinesInOrder(lines: seq<LineItem>, parent: int, inputs: seq<ItemInput>)
  {
    |lines| == |inputs| && forall k :: 0 <= k < |lines| ==> lines[k] == LineFrom(lines[k].id, parent, inputs[k])
  }

  /** Past `first` earlier steps, the insertions and the read-back that follows abort exactly when the fault falls among them. */
  lemma InsertionsAbort(fault: Option<nat>, first: nat, n: nat, aborted: bool)
    requires !Aborts(fault, first)
    requires aborted <==> fault.Some? && first <= fault.value < first + n
    ensures Aborts(fault, first + n + 1) <==> aborted || fault == Some(first + n)
  {
  }

  /**
   * The `for (const item of items)` insert loop run against a copy of the item
   * table: input k is inserted by statement `first + k` under a fresh id;
   * `aborted` is set when one of those statements fails.
   */
  method InsertLines(table: seq<LineItem>, parent: int, inputs: seq<ItemInput>, fault: Option<nat>, first: nat)
    returns (lines: seq<LineItem>, aborted: bool)
    ensures aborted <==> fault.Some? && first <= fault.value < first + |inputs|
    ensures !aborted ==> LinesInOrder(lines, parent, inputs)
  {
    lines := [];
    var k := 0;
    while k < |inputs|
      invariant 0 <= k <= |inputs|
      invariant LinesInOrder(lines, parent, inputs[..k])
      invariant !(fault.Some? && first <= fault.value < first + k)
    {
      if fault == Some(first + k) {
        return lines, true;
      }
      var line := LineFrom(Tables.NextId(LineIds(table + lines)), parent, inputs[k]);
      lines := lines + [line];
      k := k + 1;
    }
    assert inputs[..k] == inputs;
    return lines, false;
  }

  lemma {:induction false} ChildrenOfAppend(a: seq<LineItem>, b: seq<LineItem>, parent: int)
    ensures ChildrenOf(a + b, parent) == ChildrenOf(a, parent) + ChildrenOf(b, parent)
  {
    if a == [] {
      assert a + b == b;
    } else {
      assert (a + b)[1..] == a[1..] + b;
      ChildrenOfAppend(a[1..], b, parent);
    }
  }

  lemma ChildrenOfNone(a: seq<LineItem>, parent: int)
    requires forall x :: x in a ==> x.parentId != parent
    ensures ChildrenOf(a, parent) == []
  {
    if ChildrenOf(a, parent) != [] {
      assert ChildrenOf(a, parent)[0] in ChildrenOf(a, parent);
    }
  }

  lemma {:induction false} ChildrenOfAll(b: seq<LineItem>, parent: int)
    requires forall x :: x in b ==> x.parentId == parent
    ensures ChildrenOf(b, parent) == b
  {
    if b != [] {
      assert b[0] in b;
      ChildrenOfAll(b[1..], parent);
      assert [b[0]] + b[1..] == b;
    }
  }

  /** Inputs stored under `parent` belong to it. */
  lemma LinesBelongTo(lines: seq<LineItem>, parent: int, inputs: seq<ItemInput>)
    requires LinesInOrder(lines, parent, inputs)
    ensures forall x :: x in lines ==> x.parentId == parent
  {
    forall x | x in lines ensures x.parentId == parent {
      var k :| 0 <= k < |lines| && lines[k] == x;
    }
  }

  /** After replacing a parent's items, every item still names a parent of the table or that parent. */
  lemma ReplacedParents<V>(table: seq<LineItem>, parent: int, lines: seq<LineItem>, inputs: seq<ItemInput>, parents: map<int, V>)
    requires forall x :: x in table ==> x.parentId in parents
    requires LinesInOrder(lines, parent, inputs)
    ensures forall x :: x in ChildrenNotOf(table, parent) + lines ==> x.parentId in parents || x.parentId == parent
  {
    LinesBelongTo(lines, parent, inputs);
  }

  /**
   * Replacing a parent's items: once its old items are deleted and the new
   * list appended, reading the parent's items gives exactly the new list.
   */
  lemma ReplacedReadBack(table: seq<LineItem>, parent: int, lines: seq<LineItem>, inputs: seq<ItemInput>)
    requires LinesInOrder(lines, parent, inputs)
    ensures ChildrenOf(ChildrenNotOf(table, parent) + lines, parent) == lines
  {
    LinesBelongTo(lines, parent, inputs);
    ChildrenOfAppend(ChildrenNotOf(table, parent), lines, parent);
    ChildrenOfNone(ChildrenNotOf(table, parent), parent);
    ChildrenOfAll(lines, parent);
  }

  /** Appending a new parent's items: reading them back gives exactly that list. */
  lemma AppendedReadBack(table: seq<LineItem>, parent: int, lines: seq<LineItem>, inputs: seq<ItemInput>)
    requires forall x :: x in table ==> x.parentId != parent
    requires LinesInOrder(lines, parent, inputs)
    ensures ChildrenOf(table + lines, parent) == lines
  {
    LinesBelongTo(lines, parent, inputs);
    ChildrenOfAppend(table, lines, parent);
    ChildrenOfNone(table, parent);
    ChildrenOfAll(lines, parent);
  }
}
