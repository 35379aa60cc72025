/**
 * The PostgreSQL tables the Rust services share, as the handlers
 * see them: each parent table maps a serial id to its row; invoice items are
 * kept in insertion order, which is the order a plain `SELECT` returns them.
 *
 * Columns that are `DEFAULT NOW()` get the day the handler runs (`today`).
 * Item rows reference their invoice; deleting an invoice removes its items
 * (a cascading foreign key).
 */
module RustDb {
  import opened Wrappers
  import Tables

  /** `e.to_string()` of any error the database raises; its text is not modelled. */
  const DbError: string := "database error"
  /** `sqlx::Error::RowNotFound`, raised by `fetch_one` when no row matches. */
  const RowNotFound: string := "no rows returned by a query that expected to return at least one row"

  datatype Client = Client(
    id: int, userId: int, name: string, email: Option<string>, phone: Option<string>,
    address: Option<string>, taxId: Option<string>, paymentTerms: Option<int>,
    notes: Option<string>, status: Option<string>)

  datatype Product = Product(id: int, userId: int, name: string, description: Option<string>, price: real)

  /** The sixteen columns `update_company` writes. */
  datatype CompanyFields = CompanyFields(
    companyName: string, companyEmail: Option<string>, companyPhone: Option<string>,
    companyAddress: Option<string>, companyWebsite: Option<string>, taxId: Option<string>,
    logoUrl: Option<string>, invoicePrefix: Option<string>, invoiceStartingNumber: Option<int>,
    estimatePrefix: Option<string>, estimateStartingNumber: Option<int>,
    defaultPaymentTerms: Option<int>, defaultTaxRate: Option<real>, defaultCurrency: Option<string>,
    defaultNotes: Option<string>, defaultTerms: Option<string>)

  datatype CompanyRow = CompanyRow(id: int, userId: int, fields: CompanyFields, createdAt: int, updatedAt: int)

  datatype InvoiceRow = InvoiceRow(
    id: int, userId: int, clientId: Option<int>, invoiceNumber: string, status: string,
    total: real, dueDate: Option<int>, notes: Option<string>, createdAt: int)

  datatype InvoiceItem = InvoiceItem(id: int, invoiceId: int, description: string, quantity: real, price: real, amount: real)

  datatype EstimateRow = EstimateRow(
    id: int, userId: int, clientId: Option<int>, estimateNumber: string, status: string,
    total: real, issueDate: Option<int>, expiryDate: Option<int>, createdAt: int)

  datatype RecurringRow = RecurringRow(
    id: int, userId: int, clientId: Option<int>, interval: string, intervalCount: int,
    startDate: int, nextRun: Option<int>, lastRun: Option<int>, status: string, total: real, createdAt: int)

  predicate KeyedById<T>(m: map<int, T>, idOf: T -> int)
  {
    forall k :: k in m ==> idOf(m[k]) == k
  }

  function ItemIds(items: seq<InvoiceItem>): set<int>
  {
    set i | 0 <= i < |items| :: items[i].id
  }

  /** Item ids are a primary key: no two item rows share one. */
  predicate DistinctItemIds(items: seq<InvoiceItem>)
  {
    forall i, j :: 0 <= i < j < |items| ==> items[i].id != items[j].id
  }

  /** Appending an item under an unused id keeps the ids distinct. */
  lemma AppendFresh(items: seq<InvoiceItem>, item: InvoiceItem)
    requires DistinctItemIds(items)
    requires item.id !in ItemIds(items)
    ensures DistinctItemIds(items + [item])
  {
    var s := items + [item];
    forall i, j | 0 <= i < j < |s| ensures s[i].id != s[j].id {
      if j == |items| {
        assert s[i].id in ItemIds(items) by { assert s[i] == items[i]; }
      }
    }
  }

  class Database {
    var clients: map<int, Client>
    var products: map<int, Product>
    var companies: map<int, CompanyRow>
    var invoices: map<int, InvoiceRow>
    var invoiceItems: seq<InvoiceItem>
    var estimates: map<int, EstimateRow>
    var recurring: map<int, RecurringRow>

    /** Keys are the rows' ids, one company row per user, items point at invoices. */
    ghost predicate Valid()
      reads this
    {
      KeyedById(clients, (c: Client) => c.id)
      && KeyedById(products, (p: Product) => p.id)
      && KeyedById(companies, (c: CompanyRow) => c.id)
      && KeyedById(invoices, (i: InvoiceRow) => i.id)
      && KeyedById(estimates, (e: EstimateRow) => e.id)
      && KeyedById(recurring, (r: RecurringRow) => r.id)
      && (forall a, b :: a in companies && b in companies && companies[a].userId == companies[b].userId ==> a == b)
      && (forall x :: x in invoiceItems ==> x.invoiceId in invoices)
      && DistinctItemIds(invoiceItems)
    }

    constructor ()
      ensures Valid()
      ensures clients == map[] && products == map[] && companies == map[] && invoices == map[]
      ensures invoiceItems == [] && estimates == map[] && recurring == map[]
    {
      clients, products, companies, invoices := map[], map[], map[], map[];
      invoiceItems, estimates, recurring := [], map[], map[];
    }
  }
}
