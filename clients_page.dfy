/**
 * src/pages/Clients.tsx: the client directory, its search, the add/edit form
 * and the fixed client list shown in demo mode.
 */
module ClientsPage {
  import opened Wrappers
  import Text
  import Search
  import opened MockApi
  import InvoiceEditor

  /** A client as the page reads it; the fields the server may leave null are optional. */
  datatype Client = Client(id: int, name: string, email: Option<string>, address: Option<string>, phone: Option<string>,
                           taxId: Option<string>, paymentTerms: Option<int>, notes: Option<string>, status: Option<string>)

  /** The add/edit form. `email` is whatever the client held, null included. */
  datatype ClientForm = ClientForm(name: string, email: Option<string>, address: string, phone: string, taxId: string,
                                   paymentTerms: int, notes: string, status: string)

  const DefaultTerms: int := 30

  /** `resetForm`: empty text, 30-day terms, active. */
  function BlankForm(): (f: ClientForm)
    ensures f.name == "" && f.email == Some("") && f.paymentTerms == DefaultTerms && f.status == "active"
    ensures f.address == "" && f.phone == "" && f.taxId == "" && f.notes == ""
  {
    ClientForm("", Some(""), "", "", "", DefaultTerms, "", "active")
  }

  /** `openEditModal`: the client's values, with '' for missing text, 30 for missing or zero terms and 'active' for no status. */
  function EditForm(c: Client): (f: ClientForm)
    ensures f.name == c.name && f.email == c.email
    ensures f.address == OrEmpty(c.address) && f.phone == OrEmpty(c.phone) && f.taxId == OrEmpty(c.taxId) && f.notes == OrEmpty(c.notes)
    ensures f.paymentTerms == IntOr(c.paymentTerms, DefaultTerms) && f.status == TextOr(c.status, "active")
  {
    ClientForm(c.name, c.email, OrEmpty(c.address), OrEmpty(c.phone), OrEmpty(c.taxId), IntOr(c.paymentTerms, DefaultTerms),
               OrEmpty(c.notes), TextOr(c.status, "active"))
  }

  /** A client that has every field, non-zero terms and a status opens with exactly its own values. */
  lemma EditFormKeepsClient(c: Client)
    requires c.address.Some? && c.phone.Some? && c.taxId.Some? && c.notes.Some?
    requires c.paymentTerms.Some? && c.paymentTerms.value != 0 && TruthyText(c.status)
    ensures var f := EditForm(c);
            f.address == c.address.value && f.phone == c.phone.value && f.taxId == c.taxId.value && f.notes == c.notes.value
            && f.paymentTerms == c.paymentTerms.value && f.status == c.status.value
  {
  }

  /** Net-0 terms open as 30 days: `||` cannot tell zero from missing. */
  lemma ZeroTermsOpenAsDefault(c: Client)
    requires c.paymentTerms == Some(0)
    ensures EditForm(c).paymentTerms == 30
  {
  }

  /** `handleSubmit`: PUT the form to the client being edited, otherwise POST it. */
  function SaveRequest(f: ClientForm, editing: Option<int>): (r: InvoiceEditor.Request)
    ensures editing.Some? ==> r.verb == InvoiceEditor.Put && r.path == "/clients/" + Text.IntToString(editing.value)
    ensures editing.None? ==> r.verb == InvoiceEditor.Post && r.path == "/clients"
    ensures r.body == FormJson(f)
  {
    if editing.Some? then InvoiceEditor.Request(InvoiceEditor.Put, "/clients/" + Text.IntToString(editing.value), FormJson(f))
    else InvoiceEditor.Request(InvoiceEditor.Post, "/clients", FormJson(f))
  }

  function FormJson(f: ClientForm): (m: map<string, Json>)
    ensures m.Keys == {"name", "email", "address", "phone", "tax_id", "payment_terms", "notes", "status"}
  {
    map["name" := JStr(f.name), "email" := (if f.email.Some? then JStr(f.email.value) else JNull),
        "address" := JStr(f.address), "phone" := JStr(f.phone), "tax_id" := JStr(f.taxId),
        "payment_terms" := JNum(f.paymentTerms as real), "notes" := JStr(f.notes), "status" := JStr(f.status)]
  }

  // ---------------------------------------------------------------------------
  // The table.

  /** `address?.split(',')[0] || 'Remote'`: the part before the first comma. */
  function Location(address: Option<string>): (r: string)
    ensures address.None? ==> r == "Remote"
    ensures address.Some? && address.value == "" ==> r == "Remote"
  {
    if address.None? then "Remote"
    else
      var first := Text.Split(address.value, ',')[0];
      if first == "" then "Remote" else first
  }

  /** An address 'street, city' shows its street; one without a comma shows whole. */
  lemma LocationIsFirstPart(street: string, rest: string)
    requires ',' !in street && street != ""
    ensures Location(Some(street + "," + rest)) == street
    ensures Location(Some(street)) == street
  {
    assert street + "," + rest == street + [','] + rest;
    Text.SplitAround(street, rest, ',');
    Text.SplitPlain(street, ',');
  }

  /** `payment_terms || 30` followed by ' Days'. */
  function TermsText(terms: Option<int>): (r: string)
    ensures r == Text.IntToString(IntOr(terms, DefaultTerms)) + " Days"
  {
    Text.IntToString(IntOr(terms, DefaultTerms)) + " Days"
  }

  /** The badge style: 'paid' for an active client, 'draft' otherwise. */
  function Badge(status: Option<string>): string
  {
    if status == Some("active") then "paid" else "draft"
  }

  /** The badge text: the status, or 'active' when it has none. */
  function StatusText(status: Option<string>): string
  {
    TextOr(status, "active")
  }

  /**
   * Badge and text agree for a client with a status; one without a status
   * reads 'active' in the style of an inactive one.
   */
  lemma BadgeMatchesText(status: Option<string>)
    ensures TruthyText(status) ==> (Badge(status) == "paid" <==> StatusText(status) == "active")
    ensures !TruthyText(status) ==> StatusText(status) == "active" && Badge(status) == "draft"
  {
  }

  // ---------------------------------------------------------------------------
  // The search: over the name, then the email.

  function NameOf(c: Client): string { c.name }
  function EmailOf(c: Client): Option<string> { c.email }

  /** `filteredClients` as written; `None` when it throws, as it does for a client without an email. */
  function ShownAsWritten(rows: seq<Client>, search: string): (r: Option<seq<Client>>)
    ensures r.None? <==> exists i :: 0 <= i < |rows| && !Search.Mentions(rows[i].name, search) && rows[i].email.None?
    ensures r.Some? ==> forall c :: c in r.value <==> c in rows && Search.Matches(c.name, c.email, search)
  {
    Search.ShownAsWritten(rows, NameOf, EmailOf, search)
  }

  /** `filteredClients` with a missing email matching nothing. */
  function Shown(rows: seq<Client>, search: string): (r: seq<Client>)
    ensures forall c :: c in r <==> c in rows && Search.Matches(c.name, c.email, search)
  {
    Search.Shown(rows, NameOf, EmailOf, search)
  }

  // ---------------------------------------------------------------------------
  // Demo mode.

  function Demo(id: int, name: string, email: string, address: string, phone: Option<string>, terms: int, status: string): Client
  {
    Client(id, name, Some(email), Some(address), phone, None, Some(terms), None, Some(status))
  }

  /** The eight clients `fetchClients` shows for a demo token, whatever the store holds. */
  const DemoClients: seq<Client> := [
    Demo(1, "Acme Corp", "billing@acme.com", "123 Enterprise Way, San Francisco, CA", Some("+1 (555) 123-4567"), 30, "active"),
    Demo(2, "Global Tech", "accounts@globaltech.io", "78 Innovation Blvd, Austin, TX", Some("+1 (555) 987-6543"), 15, "active"),
    Demo(3, "Stark Industries", "finance@stark.com", "10880 Malibu Point, Malibu, CA", Some("+1 (555) 001-0011"), 7, "active"),
    Demo(4, "Wayne Ent.", "admin@wayne.com", "1007 Mountain Drive, Gotham City", Some("+1 (555) 888-9999"), 60, "inactive"),
    Demo(5, "Oscorp", "invoices@oscorp.com", "Empire State Bldg, New York, NY", Some("+1 (555) 444-3333"), 30, "active"),
    Demo(6, "Cyberdyne", "billing@cyberdyne.sys", "Skynet Lab, Los Angeles, CA", None, 30, "active"),
    Demo(7, "Umbrella Corp", "legal@umbrella.net", "Raccoon City, Mid-West", None, 90, "inactive"),
    Demo(8, "Virtucon", "finance@virtucon.com", "Secret Volcano Base, Switzerland", None, 30, "active")
  ]

  /**
   * `fetchClients`: for a demo token the fixed list, whatever the demo store
   * holds; otherwise what `GET /clients` answered, or the list shown before when
   * the request failed.
   */
  function Fetched(demo: bool, stored: seq<Json>, answer: Option<seq<Client>>, previous: seq<Client>): (r: seq<Client>)
    ensures demo ==> r == DemoClients
    ensures !demo && answer.Some? ==> r == answer.value
    ensures !demo && answer.None? ==> r == previous
  {
    if demo then DemoClients else if answer.Some? then answer.value else previous
  }

  /**
   * As written, a client added in demo mode (stored with the id `Date.now()`)
   * never shows: the list fetched after the add is the one fetched before,
   * and none of its ids is the new one.
   */
  lemma DemoAddIsInvisible(stored: seq<Json>, data: map<string, Json>, nowMs: nat, answer: Option<seq<Client>>, previous: seq<Client>)
    requires nowMs > 8
    ensures Fetched(true, stored + [Posted(data, nowMs)], answer, previous) == Fetched(true, stored, answer, previous)
    ensures forall x :: x in Fetched(true, stored + [Posted(data, nowMs)], answer, previous) ==> x.id != nowMs
  {
  }

  /**
   * Read through the demo store instead, as every other page does, the list
   * holds the client just registered.
   */
  lemma DemoAddShowsThroughStore(stored: seq<Json>, data: map<string, Json>, nowMs: nat)
    ensures Posted(data, nowMs) in DemoGet(stored + [Posted(data, nowMs)], "/clients").elems
  {
    assert IdOf("/clients").None? by {
      assert MatchAt("/clients", 0).None?;
      assert forall i :: 1 <= i <= |"/clients"| ==> MatchAt("/clients", i).None?;
    }
  }
}
