/**
 * src/pages/Dashboard.tsx and micro/src/pages/Dashboard.tsx: the overview
 * cards (invoice count, client count, revenue) and the five most recent
 * invoices. The main app shows fixed figures for a demo token; the
 * micro-frontend always computes them from what `api.get` answers.
 */
module Dashboard {
  import opened Wrappers
  import Text
  import opened MockApi
  import opened JsNumber

  /**
   * `parseFloat(inv.total.toString())` of the main app: `None` where it
   * throws (a null or missing total); a number reads as itself, text as
   * `parseFloat` reads it. Other JSON values are not modelled and also give
   * `None`.
   */
  function MainTotal(inv: Json): (r: Option<Num>)
    ensures r.None? ==> !(inv.JObj? && "total" in inv.fields && (inv.fields["total"].JNum? || inv.fields["total"].JStr?))
  {
    if !inv.JObj? || "total" !in inv.fields then None
    else match inv.fields["total"]
      case JNum(n) => Some(Finite(n))
      case JStr(s) => Some(ParsedNum(s))
      case _ => None
  }

  /**
   * `parseFloat(inv.total)` of the micro-frontend: throws only for a null
   * invoice; a missing total is NaN, and a present one reads as `parseFloat`
   * reads its text.
   */
  function MicroTotal(inv: Json): (r: Option<Num>)
    ensures r.None? <==> inv.JNull?
    ensures inv.JObj? && ("total" !in inv.fields || inv.fields["total"] == JNull) ==> r == Some(NaN)
    ensures inv.JObj? && "total" in inv.fields ==> r == Some(ParseFloatValue(inv.fields["total"]))
    ensures inv.JObj? && "total" in inv.fields && ParseFloatOf(Some(inv.fields["total"])).Some? ==> r == ParseFloatOf(Some(inv.fields["total"]))
    ensures !inv.JObj? && !inv.JNull? ==> r == Some(NaN)
  {
    if inv.JNull? then None
    else if !inv.JObj? || "total" !in inv.fields then Some(NaN)
    else Some(ParseFloatValue(inv.fields["total"]))
  }

  /** `invoices.reduce((acc, inv) => acc + total(inv), 0)`; `None` when a total throws. */
  function Revenue(invoices: seq<Json>, total: Json -> Option<Num>): (r: Option<Num>)
    ensures r.None? <==> exists i :: 0 <= i < |invoices| && total(invoices[i]).None?
    ensures r.Some? && r.value.NaN? <==> (forall i :: 0 <= i < |invoices| ==> total(invoices[i]).Some?)
                                         && exists i :: 0 <= i < |invoices| && total(invoices[i]) == Some(NaN)
  {
    if invoices == [] then Some(Finite(0.0))
    else
      var front := Revenue(invoices[..|invoices| - 1], total);
      var last := total(invoices[|invoices| - 1]);
      assert forall i :: 0 <= i < |invoices| - 1 ==> invoices[i] == invoices[..|invoices| - 1][i];
      if front.None? || last.None? then None else Some(Plus(front.value, last.value))
  }

  /** The sum of the totals, when every invoice has a finite one. */
  function Sum(totals: seq<real>): real
  {
    if totals == [] then 0.0 else totals[0] + Sum(totals[1..])
  }

  lemma {:induction false} SumSnoc(totals: seq<real>, x: real)
    ensures Sum(totals + [x]) == Sum(totals) + x
  {
    if totals != [] {
      assert (totals + [x])[1..] == totals[1..] + [x];
      SumSnoc(totals[1..], x);
    }
  }

  /** When every invoice carries a finite total, the revenue card is their sum. */
  lemma {:induction false} RevenueIsSum(invoices: seq<Json>, total: Json -> Option<Num>, totals: seq<real>)
    requires |totals| == |invoices|
    requires forall i :: 0 <= i < |invoices| ==> total(invoices[i]) == Some(Finite(totals[i]))
    ensures Revenue(invoices, total) == Some(Finite(Sum(totals)))
  {
    if invoices != [] {
      var n := |invoices| - 1;
      RevenueIsSum(invoices[..n], total, totals[..n]);
      assert totals[..n] + [totals[n]] == totals;
      SumSnoc(totals[..n], totals[n]);
    }
  }

  /** `invoices.slice(0, 5)`. */
  function Recent(invoices: seq<Json>): (r: seq<Json>)
    ensures |r| == if |invoices| < 5 then |invoices| else 5
    ensures r <= invoices
  {
    if |invoices| < 5 then invoices else invoices[..5]
  }

  datatype Stats = Stats(totalInvoices: nat, totalClients: nat, revenue: Num, recent: seq<Json>)

  const Initial: Stats := Stats(0, 0, Finite(0.0), [])

  /** The figures computed from the answered lists; when a total throws, the cards keep their initial zeros. */
  function Computed(invoices: seq<Json>, clients: seq<Json>, total: Json -> Option<Num>): (s: Stats)
    ensures Revenue(invoices, total).None? ==> s == Initial
    ensures Revenue(invoices, total).Some? ==>
              s.totalInvoices == |invoices| && s.totalClients == |clients| && s.revenue == Revenue(invoices, total).value
              && s.recent == Recent(invoices)
  {
    var revenue := Revenue(invoices, total);
    if revenue.None? then Initial else Stats(|invoices|, |clients|, revenue.value, Recent(invoices))
  }

  /** The five invoices the main app lists for a demo token. */
  function DemoRecent(due: seq<string>): seq<Json>
    requires |due| == 5
  {
    [DemoInvoice(1.0, "Acme Corp", 4500.0, "paid", due[0]), DemoInvoice(2.0, "Global Tech", 1200.5, "sent", due[1]),
     DemoInvoice(3.0, "Stark Industries", 8900.0, "overdue", due[2]), DemoInvoice(4.0, "Wayne Ent.", 3200.0, "draft", due[3]),
     DemoInvoice(5.0, "Oscorp", 560.0, "paid", due[4])]
  }

  function DemoInvoice(id: real, client: string, total: real, status: string, due: string): Json
  {
    JObj(map["id" := JNum(id), "client_name" := JStr(client), "total" := JNum(total), "status" := JStr(status), "due_date" := JStr(due)])
  }

  /**
   * The main dashboard: fixed figures (24 invoices, 8 clients, 18360.50)
   * for a demo token, whose due dates lie 0, 5, -2, 10 and -15 days from now;
   * otherwise the computed ones.
   */
  function MainStats(demo: bool, due: seq<string>, invoices: seq<Json>, clients: seq<Json>): (s: Stats)
    requires |due| == 5
    ensures demo ==> s == Stats(24, 8, Finite(18360.5), DemoRecent(due))
    ensures !demo ==> s == Computed(invoices, clients, MainTotal)
  {
    if demo then Stats(24, 8, Finite(18360.5), DemoRecent(due)) else Computed(invoices, clients, MainTotal)
  }

  /** The micro dashboard computes in every mode. */
  function MicroStats(invoices: seq<Json>, clients: seq<Json>): (s: Stats)
    ensures s == Computed(invoices, clients, MicroTotal)
  {
    Computed(invoices, clients, MicroTotal)
  }

  /** The fixed demo revenue is the sum of the five listed invoices, though the count card says 24. */
  lemma DemoRevenueIsListedSum(due: seq<string>)
    requires |due| == 5
    ensures Revenue(DemoRecent(due), MainTotal) == Some(MainStats(true, due, [], []).revenue)
  {
    var invoices := DemoRecent(due);
    var totals := [4500.0, 1200.5, 8900.0, 3200.0, 560.0];
    assert forall i :: 0 <= i < 5 ==> MainTotal(invoices[i]) == Some(Finite(totals[i]));
    RevenueIsSum(invoices, MainTotal, totals);
    assert Sum(totals) == 18360.5 by {
      assert totals[1..][1..][1..][1..][1..] == [];
    }
  }

  /** An invoice without a total leaves the main dashboard at its zeros, while the micro one shows NaN revenue. */
  lemma NullTotalDiffers(invoices: seq<Json>, clients: seq<Json>, i: nat)
    requires i < |invoices| && invoices[i].JObj? && invoices[i].fields == map["total" := JNull]
    requires forall k :: 0 <= k < |invoices| ==> MicroTotal(invoices[k]).Some?
    ensures MainStats(false, ["", "", "", "", ""], invoices, clients) == Initial
    ensures MicroStats(invoices, clients).revenue.NaN? && MicroStats(invoices, clients).totalInvoices == |invoices|
  {
  }
}
