/**
 * src/lib/api.ts: the browser's API client. With a demo token (one starting
 * with 'demo-token-') every call is served from mock lists kept in
 * `localStorage` under `mock_<key>`; otherwise the call goes to the server
 * and some failures fall back to the mock lists.
 *
 * `localStorage` is the `MockStore` object: its mock lists and the saved
 * token. The server's answer is a parameter (`Net`), and so is `Date.now()`.
 */
module MockApi {
  import opened Wrappers
  import Text

  /** A JSON value as `JSON.parse` returns it. */
  datatype Json =
    | JNull
    | JBool(b: bool)
    | JNum(n: real)
    | JStr(s: string)
    | JArr(elems: seq<Json>)
    | JObj(fields: map<string, Json>)

  /** JavaScript truthiness of a parsed value. */
  predicate Truthy(j: Json)
  {
    match j
    case JNull => false
    case JBool(b) => b
    case JNum(n) => n != 0.0
    case JStr(s) => s != ""
    case _ => true
  }

  /** `i.id` when it is a number. */
  function ItemId(j: Json): Option<real>
  {
    if j.JObj? && "id" in j.fields && j.fields["id"].JNum? then Some(j.fields["id"].n) else None
  }

  const NotFound: Json := JObj(map["error" := JStr("Not found")])
  const Deleted: Json := JObj(map["success" := JBool(true)])
  const DemoPrefix: string := "demo-token-"

  // ---------------------------------------------------------------------------
  // Paths.

  /** `path.split('/')[1]`, and 'undefined' (the text an `undefined` key becomes) when there is no '/'. */
  function KeyOf(path: string): string
  {
    var parts := Text.Split(path, '/');
    if |parts| > 1 then parts[1] else "undefined"
  }

  /** The end of the run of `\w` characters that starts at `i`. */
  function WordEnd(s: string, i: nat): (j: nat)
    requires i <= |s|
    ensures i <= j <= |s| && (j < |s| ==> !Text.IsWordChar(s[j]))
    ensures forall k :: i <= k < j ==> Text.IsWordChar(s[k])
    decreases |s| - i
  {
    if i < |s| && Text.IsWordChar(s[i]) then WordEnd(s, i + 1) else i
  }

  /** The end of the run of digits that starts at `i`. */
  function DigitEnd(s: string, i: nat): (j: nat)
    requires i <= |s|
    ensures i <= j <= |s| && (j < |s| ==> !Text.IsDigit(s[j]))
    ensures forall k :: i <= k < j ==> Text.IsDigit(s[k])
    decreases |s| - i
  {
    if i < |s| && Text.IsDigit(s[i]) then DigitEnd(s, i + 1) else i
  }

  /**
   * `/\/\w+\/(\d+)/` tried at position `i`: '/', a word, '/', then digits; the
   * span of the digits when it matches. A word run cannot hold '/', so the
   * greedy `\w+` has only one way to reach the second '/'.
   */
  function MatchAt(s: string, i: nat): (r: Option<(nat, nat)>)
    requires i <= |s|
    ensures r.Some? ==> i < r.value.0 < r.value.1 <= |s| && Text.AllDigits(s[r.value.0..r.value.1])
  {
    if i < |s| && s[i] == '/' then
      var j := WordEnd(s, i + 1);
      if j > i + 1 && j < |s| && s[j] == '/' then
        var e := DigitEnd(s, j + 1);
        if e > j + 1 then Some((j + 1, e)) else None
      else None
    else None
  }

  /** `parseInt(path.match(/\/\w+\/(\d+)/)[1])`: the leftmost match from `from` on. */
  function IdFrom(s: string, from: nat): (r: Option<nat>)
    requires from <= |s|
    decreases |s| - from
  {
    if from == |s| then None
    else
      var m := MatchAt(s, from);
      if m.Some? then Some(Text.DigitsValue(s[m.value.0..m.value.1])) else IdFrom(s, from + 1)
  }

  function IdOf(path: string): Option<nat>
  {
    IdFrom(path, 0)
  }

  lemma {:induction false} WordEndAt(s: string, i: nat, j: nat)
    requires i <= j <= |s|
    requires forall k :: i <= k < j ==> Text.IsWordChar(s[k])
    requires j < |s| ==> !Text.IsWordChar(s[j])
    ensures WordEnd(s, i) == j
    decreases j - i
  {
    if i < j {
      WordEndAt(s, i + 1, j);
    }
  }

  lemma {:induction false} DigitEndAt(s: string, i: nat, j: nat)
    requires i <= j <= |s|
    requires forall k :: i <= k < j ==> Text.IsDigit(s[k])
    requires j < |s| ==> !Text.IsDigit(s[j])
    ensures DigitEnd(s, i) == j
    decreases j - i
  {
    if i < j {
      DigitEndAt(s, i + 1, j);
    }
  }

  /** A word, as the `\w+` of the id pattern and a list key. */
  predicate IsWord(key: string)
  {
    key != [] && forall k :: 0 <= k < |key| ==> Text.IsWordChar(key[k])
  }

  /** The path `/<key>/<id><rest>` the pages build. */
  function ResourcePath(key: string, id: nat, rest: string): string
  {
    "/" + key + "/" + Text.NatToString(id) + rest
  }

  /** The key of `/<key>/...` is `key`. */
  lemma KeyOfResource(key: string, id: nat, rest: string)
    requires IsWord(key)
    ensures KeyOf(ResourcePath(key, id, rest)) == key
  {
    var tail := Text.NatToString(id) + rest;
    assert '/' !in key by {
      forall k | 0 <= k < |key| ensures key[k] != '/' {
        assert Text.IsWordChar(key[k]);
      }
    }
    Text.SplitAround(key, tail, '/');
    Text.SplitAround("", key + ['/'] + tail, '/');
    assert ResourcePath(key, id, rest) == "" + ['/'] + (key + ['/'] + tail);
  }

  /** `/<key>/<id>`, optionally followed by an action such as `/send`, matches the id pattern with `id`. */
  lemma IdOfResource(key: string, id: nat, rest: string)
    requires IsWord(key)
    requires rest != [] ==> rest[0] == '/'
    ensures IdOf(ResourcePath(key, id, rest)) == Some(id)
  {
    var digits := Text.NatToString(id);
    var path := ResourcePath(key, id, rest);
    var j := 1 + |key|;
    assert path[0] == '/' && path[j] == '/';
    assert forall k :: 1 <= k < j ==> path[k] == key[k - 1];
    WordEndAt(path, 1, j);
    var e := j + 1 + |digits|;
    assert path[j + 1..e] == digits;
    assert e < |path| ==> path[e] == '/';
    DigitEndAt(path, j + 1, e);
    assert MatchAt(path, 0) == Some((j + 1, e));
    Text.NatToStringValue(id);
  }

  // ---------------------------------------------------------------------------
  // The mock lists as values.

  /** `items.findIndex(i => i.id === id)`, which `find` also stops at. */
  function Find(items: seq<Json>, id: real): (r: Option<nat>)
    ensures r.None? <==> forall i :: 0 <= i < |items| ==> ItemId(items[i]) != Some(id)
    ensures r.Some? ==> r.value < |items| && ItemId(items[r.value]) == Some(id)
                        && forall i :: 0 <= i < r.value ==> ItemId(items[i]) != Some(id)
  {
    if items == [] then None
    else if ItemId(items[0]) == Some(id) then Some(0)
    else
      var r := Find(items[1..], id);
      if r.None? then None else Some(r.value + 1)
  }

  /** `items.filter(i => i.id !== id)`. */
  function Without(items: seq<Json>, id: real): (r: seq<Json>)
    ensures forall x :: x in r <==> x in items && ItemId(x) != Some(id)
    ensures |r| <= |items|
  {
    if items == [] then []
    else (if ItemId(items[0]) != Some(id) then [items[0]] else []) + Without(items[1..], id)
  }

  /** The filter keeps the order: filtering a concatenation filters each part. */
  lemma {:induction false} WithoutAppend(a: seq<Json>, b: seq<Json>, id: real)
    ensures Without(a + b, id) == Without(a, id) + Without(b, id)
  {
    if a == [] {
      assert a + b == b;
    } else {
      assert (a + b)[0] == a[0] && (a + b)[1..] == a[1..] + b;
      WithoutAppend(a[1..], b, id);
    }
  }

  /** `{ ...item, ...data }`: the fields of `data` win. */
  function Merged(item: Json, data: map<string, Json>): (m: Json)
    requires item.JObj?
    ensures m.JObj? && m.fields.Keys == item.fields.Keys + data.Keys
    ensures forall k :: k in data ==> m.fields[k] == data[k]
    ensures forall k :: k in item.fields && k !in data ==> m.fields[k] == item.fields[k]
  {
    JObj(item.fields + data)
  }

  /** `{ ...data, id: Date.now() }`. */
  function Posted(data: map<string, Json>, nowMs: nat): (x: Json)
    ensures ItemId(x) == Some(nowMs as real)
  {
    JObj(data["id" := JNum(nowMs as real)])
  }

  /** The demo `get`: the first item with the path's id, or the whole list. */
  function DemoGet(items: seq<Json>, path: string): (r: Json)
    ensures IdOf(path).None? ==> r == JArr(items)
    ensures IdOf(path).Some? && Find(items, IdOf(path).value as real).None? ==> r == NotFound
    ensures IdOf(path).Some? && Find(items, IdOf(path).value as real).Some? ==>
              r in items && ItemId(r) == Some(IdOf(path).value as real)
  {
    var id := IdOf(path);
    if id.None? then JArr(items)
    else
      var i := Find(items, id.value as real);
      if i.None? then NotFound else items[i.value]
  }

  /** A newly posted item is what a demo `get` of its id answers, when no earlier item had that id. */
  lemma PostThenGet(items: seq<Json>, data: map<string, Json>, nowMs: nat, key: string)
    requires IsWord(key)
    requires forall i :: 0 <= i < |items| ==> ItemId(items[i]) != Some(nowMs as real)
    ensures DemoGet(items + [Posted(data, nowMs)], ResourcePath(key, nowMs, "")) == Posted(data, nowMs)
  {
    IdOfResource(key, nowMs, "");
    var all := items + [Posted(data, nowMs)];
    assert forall i :: 0 <= i < |items| ==> all[i] == items[i];
    assert all[|items|] == Posted(data, nowMs);
  }

  /** After a demo `put` that keeps the id, a `get` of that id answers the merged item. */
  lemma PutThenGet(items: seq<Json>, id: real, data: map<string, Json>)
    requires Find(items, id).Some? && items[Find(items, id).value].JObj?
    requires "id" in data ==> data["id"] == JNum(id)
    ensures Find(items[Find(items, id).value := Merged(items[Find(items, id).value], data)], id) == Find(items, id)
  {
    var i := Find(items, id).value;
    var next := items[i := Merged(items[i], data)];
    assert ItemId(next[i]) == Some(id);
    assert forall k :: 0 <= k < i ==> next[k] == items[k];
  }

  /** After a demo `delete`, no item with that id is left for `get` to find. */
  lemma DeleteThenGet(items: seq<Json>, id: real)
    ensures Find(Without(items, id), id).None?
  {
    var r := Without(items, id);
    assert forall i :: 0 <= i < |r| ==> r[i] in r;
  }

  // ---------------------------------------------------------------------------
  // The seed data.

  function Line(description: string, quantity: real, priceKey: string, price: real): Json
  {
    JObj(map["description" := JStr(description), "quantity" := JNum(quantity), priceKey := JNum(price)])
  }

  function SeedInvoice(id: real, client: string, email: string, total: string, status: string, due: string,
                       item: string, price: real): (x: Json)
    ensures ItemId(x) == Some(id)
  {
    JObj(map["id" := JNum(id), "client_name" := JStr(client), "client_email" := JStr(email), "total" := JStr(total),
             "status" := JStr(status), "due_date" := JStr(due), "items" := JArr([Line(item, 1.0, "price", price)])])
  }

  function SeedClient(id: real, name: string, email: string, address: string): (x: Json)
    ensures ItemId(x) == Some(id)
  {
    JObj(map["id" := JNum(id), "name" := JStr(name), "email" := JStr(email), "address" := JStr(address)])
  }

  function SeedProduct(id: real, name: string, price: real, description: string): (x: Json)
    ensures ItemId(x) == Some(id)
  {
    JObj(map["id" := JNum(id), "name" := JStr(name), "price" := JNum(price), "description" := JStr(description)])
  }

  function SeedEstimate(id: real, client: string, number: string, issue: string, expiry: string, total: string, status: string): (x: Json)
    ensures ItemId(x) == Some(id)
  {
    JObj(map["id" := JNum(id), "client_name" := JStr(client), "estimate_number" := JStr(number), "issue_date" := JStr(issue),
             "expiry_date" := JStr(expiry), "total" := JStr(total), "status" := JStr(status)])
  }

  const SeedKeys: seq<string> := ["invoices", "clients", "products", "estimates", "recurring"]

  /** The list `initMockData` writes under each key; each list numbers its items from 1. */
  function Seed(key: string): (s: seq<Json>)
    ensures forall i :: 0 <= i < |s| ==> ItemId(s[i]) == Some((i + 1) as real)
  {
    if key == "invoices" then
      [SeedInvoice(1.0, "Acme Corp", "billing@acme.com", "1200.00", "paid", "2024-03-30", "Q1 Consulting", 1200.0),
       SeedInvoice(2.0, "Stark Industries", "pepper@stark.com", "4500.00", "sent", "2024-04-15", "Arc Reactor Maintenance", 4500.0),
       SeedInvoice(3.0, "Wayne Ent.", "alfred@wayne.com", "850.00", "overdue", "2024-03-01", "Gadget Repair", 850.0)]
    else if key == "clients" then
      [SeedClient(1.0, "Acme Corp", "billing@acme.com", "123 Anvil Way"),
       SeedClient(2.0, "Stark Industries", "pepper@stark.com", "Malibu Point 10880"),
       SeedClient(3.0, "Wayne Ent.", "alfred@wayne.com", "Wanye Manor")]
    else if key == "products" then
      [SeedProduct(1.0, "Consulting", 150.0, "Hourly consulting rate"),
       SeedProduct(2.0, "Web Design", 2000.0, "Standard website project")]
    else if key == "estimates" then
      [SeedEstimate(1.0, "Oscorp", "EST-2024-001", "2024-03-15", "2024-04-15", "15000.00", "sent"),
       SeedEstimate(2.0, "Pied Piper", "EST-2024-002", "2024-03-20", "2024-04-20", "2500.00", "accepted")]
    else
      [SeedRecurring(1.0, "Daily Bugle", "month", 1.0, "2024-01-01", "2024-04-01", "2024-03-01", 500.0, "active",
                     "Ad Space", 500.0)]
  }

  function SeedRecurring(id: real, client: string, interval: string, count: real, start: string, next: string,
                         last: string, total: real, status: string, item: string, price: real): (x: Json)
    ensures ItemId(x) == Some(id)
  {
    JObj(map["id" := JNum(id), "client_name" := JStr(client), "interval" := JStr(interval),
             "interval_count" := JNum(count), "start_date" := JStr(start), "next_run" := JStr(next),
             "last_run" := JStr(last), "total" := JNum(total), "status" := JStr(status),
             "items" := JArr([Line(item, 1.0, "unit_price", price)])])
  }

  /** The stored lists after seeding `key` with `seed(key)` when it is absent. */
  function SeedAbsent(m: map<string, seq<Json>>, key: string, seed: string -> seq<Json>): (r: map<string, seq<Json>>)
    ensures r.Keys == m.Keys + {key}
    ensures forall k :: k in m ==> r[k] == m[k]
    ensures key !in m ==> r[key] == seed(key)
  {
    if key in m then m else m[key := seed(key)]
  }

  /**
   * The stored lists after `initMockData` with the lists `seed` gives each
   * key (the store passes `Seed`): the five keys are seeded in turn.
   */
  function Seeded(m: map<string, seq<Json>>, seed: string -> seq<Json>): map<string, seq<Json>>
  {
    SeedAbsent(SeedAbsent(SeedAbsent(SeedAbsent(SeedAbsent(m, "invoices", seed), "clients", seed), "products", seed),
                          "estimates", seed), "recurring", seed)
  }

  /** `initMockData` adds the five keys and no other. */
  lemma SeededKeys(m: map<string, seq<Json>>, seed: string -> seq<Json>)
    ensures forall k :: k in Seeded(m, seed) <==> k in m || k in SeedKeys
  {
    var m1 := SeedAbsent(m, "invoices", seed);
    var m2 := SeedAbsent(m1, "clients", seed);
    var m3 := SeedAbsent(m2, "products", seed);
    var m4 := SeedAbsent(m3, "estimates", seed);
    assert Seeded(m, seed).Keys == m.Keys + {SeedKeys[0]} + {SeedKeys[1]} + {SeedKeys[2]} + {SeedKeys[3]} + {SeedKeys[4]};
    forall k ensures k in SeedKeys <==> k == SeedKeys[0] || k == SeedKeys[1] || k == SeedKeys[2] || k == SeedKeys[3] || k == SeedKeys[4] {
    }
  }

  /** `initMockData` keeps every list already stored. */
  lemma SeededKeeps(m: map<string, seq<Json>>, seed: string -> seq<Json>)
    ensures forall k :: k in m ==> Seeded(m, seed)[k] == m[k]
  {
    var m1 := SeedAbsent(m, "invoices", seed);
    var m2 := SeedAbsent(m1, "clients", seed);
    var m3 := SeedAbsent(m2, "products", seed);
    var m4 := SeedAbsent(m3, "estimates", seed);
    assert Seeded(m, seed) == SeedAbsent(m4, "recurring", seed);
  }

  /** Each of the five keys that was absent holds its seed list after `initMockData`. */
  lemma SeededLists(m: map<string, seq<Json>>, seed: string -> seq<Json>)
    ensures forall k :: k in SeedKeys && k !in m ==> Seeded(m, seed)[k] == seed(k)
  {
    var m1 := SeedAbsent(m, "invoices", seed);
    var m2 := SeedAbsent(m1, "clients", seed);
    var m3 := SeedAbsent(m2, "products", seed);
    var m4 := SeedAbsent(m3, "estimates", seed);
    assert Seeded(m, seed) == SeedAbsent(m4, "recurring", seed);
    KeysDiffer();
    forall k | k in SeedKeys && k !in m ensures Seeded(m, seed)[k] == seed(k) {
      if k == "invoices" {
        assert m1[k] == seed(k);
      } else if k == "clients" {
        assert k !in m1;
      } else if k == "products" {
        assert k !in m2;
      } else if k == "estimates" {
        assert k !in m3;
      } else {
        assert k !in m4;
      }
    }
  }

  /** The five keys are different strings: they start with different letters. */
  lemma KeysDiffer()
    ensures forall i, j :: 0 <= i < j < |SeedKeys| ==> SeedKeys[i] != SeedKeys[j]
  {
    forall i, j | 0 <= i < j < |SeedKeys| ensures SeedKeys[i] != SeedKeys[j] {
      assert SeedKeys[i][0] != SeedKeys[j][0];
    }
  }

  /** Every seeded list holds items with distinct numeric ids. */
  lemma SeedIdsDistinct(key: string)
    ensures forall i, j :: 0 <= i < j < |Seed(key)| ==> ItemId(Seed(key)[i]).Some? && ItemId(Seed(key)[i]) != ItemId(Seed(key)[j])
  {
    var s := Seed(key);
    forall i, j | 0 <= i < j < |s| ensures ItemId(s[i]) != ItemId(s[j]) {
      assert ItemId(s[i]) == Some((i + 1) as real) && ItemId(s[j]) == Some((j + 1) as real);
    }
  }

  // ---------------------------------------------------------------------------
  // The store.

  /** The server's answer to a `fetch`: its status and parsed body, or no answer at all. */
  datatype Net = Answered(status: int, body: Json) | Unreachable

  predicate Succeeded(n: Net)
  {
    n.Answered? && 200 <= n.status < 300
  }

  /** What a call returns, or that it throws to its caller. */
  datatype Reply = Value(j: Json) | Thrown

  predicate IsDemoToken(token: Option<string>)
  {
    token.Some? && |DemoPrefix| <= |token.value| && token.value[..|DemoPrefix|] == DemoPrefix
  }

  /** What the fallback `post` to '/auth/login' or '/auth/register' answers. */
  function DemoLogin(data: map<string, Json>, nowMs: nat): Json
  {
    var email := if "email" in data && Truthy(data["email"]) then data["email"] else JStr("demo@billio.com");
    JObj(map["token" := JStr(DemoPrefix + Text.NatToString(nowMs)),
             "user" := JObj(map["id" := JNum(1.0), "email" := email])])
  }

  /** The fabricated token is itself a demo token, so later calls run in demo mode. */
  lemma DemoLoginIsDemo(data: map<string, Json>, nowMs: nat)
    ensures IsDemoToken(Some(DemoLogin(data, nowMs).fields["token"].s))
  {
    var t := DemoPrefix + Text.NatToString(nowMs);
    assert t[..|DemoPrefix|] == DemoPrefix;
  }

  predicate IsAuthPath(path: string)
  {
    path == "/auth/login" || path == "/auth/register"
  }

  /**
   * What `post` answers outside demo mode: the server's body on success; on
   * any failure (an error answer is caught along with a lost connection) the
   * fabricated login for the auth paths, the appended mock item otherwise.
   */
  function ServerPost(path: string, data: map<string, Json>, nowMs: nat, net: Net): (r: Json)
    ensures Succeeded(net) ==> r == net.body
    ensures !Succeeded(net) && IsAuthPath(path) ==> r == DemoLogin(data, nowMs)
    ensures !Succeeded(net) && !IsAuthPath(path) ==> r == Posted(data, nowMs)
  {
    if Succeeded(net) then net.body
    else if IsAuthPath(path) then DemoLogin(data, nowMs)
    else Posted(data, nowMs)
  }

  /** As written, a refusal by the server answers exactly what an unreachable server does. */
  lemma RefusalLooksUnreachable(path: string, data: map<string, Json>, nowMs: nat, status: int, body: Json)
    requires !(200 <= status < 300)
    ensures ServerPost(path, data, nowMs, Answered(status, body)) == ServerPost(path, data, nowMs, Unreachable)
  {
  }

  /**
   * `post` with the fallback kept for a server that cannot be reached, as its
   * warning says: an error answer throws, like `put` and `delete`.
   */
  function CheckedPost(path: string, data: map<string, Json>, nowMs: nat, net: Net): (r: Reply)
    ensures Succeeded(net) ==> r == Value(net.body)
    ensures net.Answered? && !Succeeded(net) ==> r == Thrown
    ensures net.Unreachable? ==> r == Value(ServerPost(path, data, nowMs, net))
  {
    if net.Answered? && !Succeeded(net) then Thrown else Value(ServerPost(path, data, nowMs, net))
  }

  /** What `api.getPdf` resolves to: the fixed demo blob, the server's bytes, or a throw. */
  datatype PdfReply = DemoBlob | Blob(bytes: seq<int>) | PdfFailed

  class MockStore {
    /** `localStorage['mock_<key>']`, parsed. */
    var lists: map<string, seq<Json>>
    /** `localStorage['token']`. */
    var token: Option<string>

    constructor (token: Option<string>)
      ensures lists == map[] && this.token == token
    {
      lists := map[];
      this.token := token;
    }

    /** `getMockData(key) || []`. */
    function Stored(key: string): seq<Json>
      reads this
    {
      if key in lists then lists[key] else []
    }

    predicate Demo()
      reads this
    {
      IsDemoToken(token)
    }

    /** `initMockData`: seeds each of the five keys that is absent, and touches nothing else. */
    method Init()
      modifies this`lists
      ensures lists == Seeded(old(lists), Seed)
    {
      SeedIfAbsent("invoices");
      SeedIfAbsent("clients");
      SeedIfAbsent("products");
      SeedIfAbsent("estimates");
      SeedIfAbsent("recurring");
    }

    /** One `if (!localStorage.getItem('mock_<key>')) setMockData(key, ...)` of `initMockData`. */
    method SeedIfAbsent(key: string)
      modifies this`lists
      ensures lists == SeedAbsent(old(lists), key, Seed)
    {
      if key !in lists {
        lists := lists[key := Seed(key)];
      }
    }

    /** A 401 answer clears the saved token (the redirect to '/login' is not modelled). */
    method Forget(net: Net)
      modifies this`token
      ensures token == if net.Answered? && net.status == 401 then None else old(token)
    {
      if net.Answered? && net.status == 401 {
        token := None;
      }
    }

    /**
     * `api.get(path)`: the demo lookup; otherwise the server's body, or on any
     * failure the stored mock list for the path's key.
     */
    method Get(path: string, net: Net) returns (r: Json)
      modifies this`token
      ensures old(Demo()) ==> r == DemoGet(Stored(KeyOf(path)), path) && token == old(token)
      ensures !old(Demo()) && Succeeded(net) ==> r == net.body
      ensures !old(Demo()) && !Succeeded(net) ==> r == JArr(Stored(KeyOf(path)))
      ensures !old(Demo()) ==> token == (if net.Answered? && net.status == 401 then None else old(token))
    {
      if Demo() {
        return DemoGet(Stored(KeyOf(path)), path);
      }
      Forget(net);
      if Succeeded(net) {
        return net.body;
      }
      r := JArr(Stored(KeyOf(path)));
    }

    /** Appends the posted item to the key's list. */
    method Append(key: string, x: Json)
      modifies this`lists
      ensures lists == old(lists)[key := old(Stored(key)) + [x]]
    {
      lists := lists[key := Stored(key) + [x]];
    }

    /**
     * `api.post(path, data)`: in demo mode, or when the server cannot be used,
     * appends `{ ...data, id: Date.now() }` to the key's list and answers it;
     * a failed login or registration answers a fabricated demo token instead.
     */
    method Post(path: string, data: map<string, Json>, nowMs: nat, net: Net) returns (r: Json)
      modifies this`lists, this`token
      ensures var auth := path == "/auth/login" || path == "/auth/register";
              (old(Demo()) || (!Succeeded(net) && !auth)) ==>
                r == Posted(data, nowMs) && lists == old(lists)[KeyOf(path) := old(Stored(KeyOf(path))) + [r]]
      ensures !old(Demo()) && Succeeded(net) ==> r == net.body && lists == old(lists)
      ensures !old(Demo()) && !Succeeded(net) && (path == "/auth/login" || path == "/auth/register") ==>
                r == DemoLogin(data, nowMs) && lists == old(lists)
      ensures old(Demo()) ==> token == old(token)
      ensures !old(Demo()) ==>
                token == (if net.Answered? && net.status == 401 && path != "/auth/login" && path != "/auth/register"
                          then None else old(token))
      ensures !old(Demo()) ==> r == ServerPost(path, data, nowMs, net)
    {
      if Demo() {
        r := Posted(data, nowMs);
        Append(KeyOf(path), r);
        return;
      }
      if net.Answered? && net.status == 401 && path != "/auth/login" && path != "/auth/register" {
        token := None;
      }
      if Succeeded(net) {
        return net.body;
      }
      if path == "/auth/login" || path == "/auth/register" {
        return DemoLogin(data, nowMs);
      }
      r := Posted(data, nowMs);
      Append(KeyOf(path), r);
    }

    /**
     * `api.put(path, data)`: in demo mode merges `data` into the first item
     * with the path's id, or answers `{ error: 'Not found' }` and changes
     * nothing; otherwise the server's body, and a failure throws.
     */
    method Put(path: string, data: map<string, Json>, net: Net) returns (r: Reply)
      modifies this`lists, this`token
      ensures old(Demo()) ==> token == old(token)
      ensures !old(Demo()) ==> token == (if net.Answered? && net.status == 401 then None else old(token))
      ensures !old(Demo()) ==> lists == old(lists)
      ensures !old(Demo()) ==> r == (if Succeeded(net) then Value(net.body) else Thrown)
      ensures old(Demo()) && (IdOf(path).None? || Find(old(Stored(KeyOf(path))), IdOf(path).value as real).None?) ==>
                r == Value(NotFound) && lists == old(lists)
      ensures old(Demo()) && IdOf(path).Some? && Find(old(Stored(KeyOf(path))), IdOf(path).value as real).Some? ==>
                (var items := old(Stored(KeyOf(path)));
                 var i := Find(items, IdOf(path).value as real).value;
                 items[i].JObj? && r == Value(Merged(items[i], data))
                 && lists == old(lists)[KeyOf(path) := items[i := Merged(items[i], data)]])
    {
      if Demo() {
        var key := KeyOf(path);
        var id := IdOf(path);
        if id.Some? {
          var items := Stored(key);
          var index := Find(items, id.value as real);
          if index.Some? {
            var merged := Merged(items[index.value], data);
            lists := lists[key := items[index.value := merged]];
            return Value(merged);
          }
        }
        return Value(NotFound);
      }
      Forget(net);
      r := if Succeeded(net) then Value(net.body) else Thrown;
    }

    /**
     * `api.delete(path)`: in demo mode with an id, drops every item with that
     * id and answers `{ success: true }`, matched or not; otherwise (also a
     * demo path without an id) the server's body, and a failure throws.
     */
    method Delete(path: string, net: Net) returns (r: Reply)
      modifies this`lists, this`token
      ensures old(Demo()) && IdOf(path).Some? ==>
                r == Value(Deleted) && token == old(token)
                && lists == old(lists)[KeyOf(path) := Without(old(Stored(KeyOf(path))), IdOf(path).value as real)]
      ensures !(old(Demo()) && IdOf(path).Some?) ==>
                lists == old(lists) && r == (if Succeeded(net) then Value(net.body) else Thrown)
                && token == (if net.Answered? && net.status == 401 then None else old(token))
    {
      if Demo() {
        var id := IdOf(path);
        if id.Some? {
          var key := KeyOf(path);
          lists := lists[key := Without(Stored(key), id.value as real)];
          return Value(Deleted);
        }
      }
      Forget(net);
      r := if Succeeded(net) then Value(net.body) else Thrown;
    }

    /** `api.getPdf(id)`: the fixed demo blob in demo mode; otherwise the server's bytes, and a failure throws. */
    method GetPdf(net: Net, bytes: seq<int>) returns (r: PdfReply)
      modifies this`token
      ensures old(Demo()) ==> r == DemoBlob && token == old(token)
      ensures !old(Demo()) ==> r == (if Succeeded(net) then Blob(bytes) else PdfFailed)
      ensures !old(Demo()) ==> token == (if net.Answered? && net.status == 401 then None else old(token))
    {
      if Demo() {
        return DemoBlob;
      }
      Forget(net);
      r := if Succeeded(net) then Blob(bytes) else PdfFailed;
    }
  }
}
