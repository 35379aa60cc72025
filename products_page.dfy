/**
 * src/pages/Products.tsx: the catalogue of products and services, its
 * search, the add/edit form with its price text, and the fixed catalogue
 * shown in demo mode.
 */
module ProductsPage {
  import opened Wrappers
  import Text
  import Search
  import opened MockApi
  import InvoiceEditor

  /**
   * A product as the page reads it: the price as it arrives (a number, or the
   * text of a database decimal), and in `others` the row's remaining columns
   * (`user_id`, `created_at`), which the page does not show.
   */
  datatype Product = Product(id: int, name: string, unitPrice: Json, description: Option<string>, others: map<string, Json>)

  /** The form: the price as typed, and in `carried` what was spread into it from the product being edited. */
  datatype ProductForm = ProductForm(name: string, unitPrice: string, description: Option<string>, carried: map<string, Json>)

  const BlankForm: ProductForm := ProductForm("", "", Some(""), map[])

  /** `unit_price.toString()`; `None` for null (it throws) and for fractional numbers, whose text is not modelled. */
  function PriceText(j: Json): (r: Option<string>)
    ensures j.JStr? ==> r == Some(j.s)
    ensures j.JNull? ==> r.None?
  {
    match j
    case JStr(s) => Some(s)
    case JNum(n) => if n >= 0.0 && n == n.Floor as real then Some(Text.NatToString(n.Floor)) else None
    case _ => None
  }

  /**
   * The Edit button: `{ ...product, unit_price: product.unit_price.toString() }`;
   * every column of the product rides along in the form. `None` when the
   * price cannot be rendered.
   */
  function EditForm(p: Product): (r: Option<ProductForm>)
    ensures r.Some? <==> PriceText(p.unitPrice).Some?
    ensures r.Some? ==> r.value.name == p.name && r.value.unitPrice == PriceText(p.unitPrice).value && r.value.description == p.description
    ensures r.Some? ==> "id" in r.value.carried && r.value.carried["id"] == JNum(p.id as real)
    ensures r.Some? ==> forall k :: k in p.others && k != "id" ==> k in r.value.carried && r.value.carried[k] == p.others[k]
  {
    var price := PriceText(p.unitPrice);
    if price.None? then None else Some(ProductForm(p.name, price.value, p.description, p.others["id" := JNum(p.id as real)]))
  }

  /**
   * `{ ...formData, unit_price: parseFloat(formData.unit_price) }`: what the
   * form carried, with the three edited fields on top; a price that is no
   * number travels as null.
   */
  function Payload(f: ProductForm): (m: map<string, Json>)
    ensures m.Keys == f.carried.Keys + Edited(f).Keys
    ensures forall k :: k in Edited(f) ==> m[k] == Edited(f)[k]
    ensures forall k :: k in f.carried && k !in Edited(f) ==> m[k] == f.carried[k]
  {
    f.carried + Edited(f)
  }

  /** The three fields the form edits, as they are sent. */
  function Edited(f: ProductForm): (m: map<string, Json>)
    ensures m.Keys == {"name", "unit_price", "description"}
    ensures m["name"] == JStr(f.name)
    ensures m["unit_price"] == (if Text.ParseFloat(f.unitPrice).Some? then JNum(Text.ParseFloat(f.unitPrice).value) else JNull)
    ensures m["description"] == (if f.description.Some? then JStr(f.description.value) else JNull)
  {
    var price := Text.ParseFloat(f.unitPrice);
    map["name" := JStr(f.name), "unit_price" := (if price.Some? then JNum(price.value) else JNull),
        "description" := (if f.description.Some? then JStr(f.description.value) else JNull)]
  }

  /** `handleSubmit`: PUT to the product being edited, otherwise POST. */
  function SaveRequest(f: ProductForm, editing: Option<int>): (r: InvoiceEditor.Request)
    ensures editing.Some? ==> r.verb == InvoiceEditor.Put && r.path == "/products/" + Text.IntToString(editing.value)
    ensures editing.None? ==> r.verb == InvoiceEditor.Post && r.path == "/products"
    ensures r.body == Payload(f)
  {
    if editing.Some? then InvoiceEditor.Request(InvoiceEditor.Put, "/products/" + Text.IntToString(editing.value), Payload(f))
    else InvoiceEditor.Request(InvoiceEditor.Post, "/products", Payload(f))
  }

  /** A new service sends exactly the three form fields. */
  lemma NewServiceSendsFormFields(name: string, price: string, description: Option<string>)
    ensures Payload(ProductForm(name, price, description, map[])).Keys == {"name", "unit_price", "description"}
  {
  }

  /**
   * Saving an edited service sends its whole row back: its id and every other
   * column as it was read, beside the edited fields; the server reads only
   * the edited ones.
   */
  lemma EditSendsWholeRow(p: Product, name: string, price: string, description: Option<string>)
    requires EditForm(p).Some?
    ensures var m := Payload(EditForm(p).value.(name := name, unitPrice := price, description := description));
      && m.Keys == p.others.Keys + {"id", "name", "unit_price", "description"}
      && m["id"] == JNum(p.id as real)
      && (forall k :: k in p.others && k !in {"id", "name", "unit_price", "description"} ==> m[k] == p.others[k])
  {
    var f := EditForm(p).value.(name := name, unitPrice := price, description := description);
    SpreadRow(p.others, JNum(p.id as real), Edited(f));
  }

  /** The spread row under the edited fields: the row's keys and the edited ones, the id and the other columns kept. */
  lemma SpreadRow(others: map<string, Json>, id: Json, top: map<string, Json>)
    requires top.Keys == {"name", "unit_price", "description"}
    ensures var m := others["id" := id] + top;
      && m.Keys == others.Keys + {"id", "name", "unit_price", "description"}
      && m["id"] == id
      && (forall k :: k in others && k !in {"id", "name", "unit_price", "description"} ==> m[k] == others[k])
  {
    assert "id" !in top by {
      assert |"id"| != |"name"| && |"id"| != |"unit_price"| && |"id"| != |"description"|;
    }
  }

  /**
   * Opening a product whose price is database decimal text puts text in the
   * form that reads back as the same value; by `SavedTextPrice`, saving it
   * unchanged then sends that value as a number.
   */
  lemma EditThenSaveKeepsDecimalPrice(p: Product, n: nat, d: string)
    requires Text.AllDigits(d) && p.unitPrice == JStr(Text.NatToString(n) + "." + d)
    ensures EditForm(p).Some? && Text.ParseFloat(EditForm(p).value.unitPrice) == Some(n as real + Text.Fraction(d))
  {
    Text.ParseFloatOfDecimal(n, d);
  }

  /** A price held as text that parses to `v` is saved as the number `v`. */
  lemma SavedTextPrice(p: Product, text: string, v: real)
    requires p.unitPrice == JStr(text) && Text.ParseFloat(text) == Some(v)
    ensures EditForm(p).Some? && Payload(EditForm(p).value)["unit_price"] == JNum(v)
  {
    assert EditForm(p).value.unitPrice == text;
  }

  /** The same for a whole-number price, as the demo catalogue holds. */
  lemma EditThenSaveKeepsWholePrice(p: Product, n: nat)
    requires p.unitPrice == JNum(n as real)
    ensures EditForm(p).Some? && Payload(EditForm(p).value)["unit_price"] == JNum(n as real)
  {
    assert (n as real).Floor == n;
    Text.ParseFloatOfNat(n);
  }

  /** The description cell: the description, or 'No description provided'. */
  function DescriptionText(description: Option<string>): (r: string)
    ensures TruthyText(description) ==> r == description.value
    ensures !TruthyText(description) ==> r == "No description provided"
  {
    TextOr(description, "No description provided")
  }

  function NameOf(p: Product): string { p.name }
  function DescriptionOf(p: Product): Option<string> { p.description }

  /**
   * `filteredProducts` as written; `None` when it throws, as it does for a
   * product without a description, which the table itself renders.
   */
  function ShownAsWritten(rows: seq<Product>, search: string): (r: Option<seq<Product>>)
    ensures r.None? <==> exists i :: 0 <= i < |rows| && !Search.Mentions(rows[i].name, search) && rows[i].description.None?
    ensures r.Some? ==> forall p :: p in r.value <==> p in rows && Search.Matches(p.name, p.description, search)
  {
    Search.ShownAsWritten(rows, NameOf, DescriptionOf, search)
  }

  /** `filteredProducts` with a missing description matching nothing. */
  function Shown(rows: seq<Product>, search: string): (r: seq<Product>)
    ensures forall p :: p in r <==> p in rows && Search.Matches(p.name, p.description, search)
  {
    Search.Shown(rows, NameOf, DescriptionOf, search)
  }

  /** The six services `fetchProducts` shows for a demo token, whatever the store holds. */
  const DemoProducts: seq<Product> := [
    Product(1, "Web Development", JNum(150.0), Some("High-quality React/Next.js development services"), map[]),
    Product(2, "UI/UX Design", JNum(120.0), Some("Custom interface and user experience design"), map[]),
    Product(3, "SEO Optimization", JNum(85.0), Some("Comprehensive search engine optimization audit and implementation"), map[]),
    Product(4, "Mobile App Development", JNum(180.0), Some("Native and cross-platform mobile application development"), map[]),
    Product(5, "Consulting", JNum(200.0), Some("Technical advisory and business strategy consulting"), map[]),
    Product(6, "Graphic Design", JNum(90.0), Some("Brand identity, logos, and marketing materials design"), map[])
  ]

  /**
   * `fetchProducts`: for a demo token the fixed list, whatever the demo store
   * holds; otherwise what `GET /products` answered, or the list shown before when
   * the request failed.
   */
  function Fetched(demo: bool, stored: seq<Json>, answer: Option<seq<Product>>, previous: seq<Product>): (r: seq<Product>)
    ensures demo ==> r == DemoProducts
    ensures !demo && answer.Some? ==> r == answer.value
    ensures !demo && answer.None? ==> r == previous
  {
    if demo then DemoProducts else if answer.Some? then answer.value else previous
  }

  /**
   * As written, a service added in demo mode (stored with the id `Date.now()`)
   * never shows: the list fetched after the add is the one fetched before,
   * and none of its ids is the new one.
   */
  lemma DemoAddIsInvisible(stored: seq<Json>, data: map<string, Json>, nowMs: nat, answer: Option<seq<Product>>, previous: seq<Product>)
    requires nowMs > 6
    ensures Fetched(true, stored + [Posted(data, nowMs)], answer, previous) == Fetched(true, stored, answer, previous)
    ensures forall x :: x in Fetched(true, stored + [Posted(data, nowMs)], answer, previous) ==> x.id != nowMs
  {
  }

  /** Read through the demo store instead, the catalogue holds the service just added. */
  lemma DemoAddShowsThroughStore(stored: seq<Json>, data: map<string, Json>, nowMs: nat)
    ensures Posted(data, nowMs) in DemoGet(stored + [Posted(data, nowMs)], "/products").elems
  {
    assert IdOf("/products").None? by {
      assert forall i :: 0 <= i <= |"/products"| ==> MatchAt("/products", i).None?;
    }
  }
}
