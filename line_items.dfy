/**
 * The line-item table shared by the invoice, estimate and recurring-profile
 * editors (src/pages/InvoiceEditor.tsx, micro/src/pages/InvoiceEditor.tsx,
 * src/pages/RecurringInvoiceEditor.tsx and its micro copy hold the same
 * code). The editor keeps an array of item objects: adding and removing copy
 * the array, while editing a field writes into the item object itself, which
 * the previous state's array shares.
 */
module LineItems {
  import opened Wrappers
  import Text
  import opened MockApi

  /** The values of one line item. */
  datatype Line = Line(description: string, quantity: real, unitPrice: real)

  /** What `addItem` appends. */
  const BlankLine: Line := Line("", 1.0, 0.0)

  /** A line-item object of the editor's state. */
  class Item {
    var description: string
    var quantity: real
    var unitPrice: real

    constructor (l: Line)
      ensures Value() == l
    {
      description := l.description;
      quantity := l.quantity;
      unitPrice := l.unitPrice;
    }

    function Value(): Line
      reads this
    {
      Line(description, quantity, unitPrice)
    }
  }

  /** The values the item objects hold now. */
  function Lines(items: seq<Item>): (r: seq<Line>)
    reads set x | x in items
    ensures |r| == |items| && forall i :: 0 <= i < |items| ==> r[i] == items[i].Value()
  {
    if items == [] then [] else Lines(items[..|items| - 1]) + [items[|items| - 1].Value()]
  }

  function Amount(l: Line): real
  {
    l.quantity * l.unitPrice
  }

  /** `calculateTotal`: the `reduce` that adds each item's quantity times price, from 0, left to right. */
  function Total(lines: seq<Line>): real
  {
    if lines == [] then 0.0 else Total(lines[..|lines| - 1]) + Amount(lines[|lines| - 1])
  }

  /** The same sum taken from the front: an independent reading of the total. */
  function SumFromFront(lines: seq<Line>): real
  {
    if lines == [] then 0.0 else Amount(lines[0]) + SumFromFront(lines[1..])
  }

  lemma {:induction false} TotalAppend(a: seq<Line>, b: seq<Line>)
    ensures Total(a + b) == Total(a) + Total(b)
    decreases |b|
  {
    if b != [] {
      assert (a + b)[..|a + b| - 1] == a + b[..|b| - 1];
      assert (a + b)[|a + b| - 1] == b[|b| - 1];
      TotalAppend(a, b[..|b| - 1]);
    } else {
      assert a + b == a;
    }
  }

  /** The total does not depend on the order of addition: it is the sum of the amounts. */
  lemma {:induction false} TotalIsSum(lines: seq<Line>)
    ensures Total(lines) == SumFromFront(lines)
    decreases |lines|
  {
    if lines != [] {
      TotalAppend([lines[0]], lines[1..]);
      assert [lines[0]] + lines[1..] == lines;
      assert Total([lines[0]]) == Amount(lines[0]) by {
        assert [lines[0]][..0] == [];
      }
      TotalIsSum(lines[1..]);
    }
  }

  /** Replacing one line changes the total by the difference of the two amounts. */
  lemma TotalReplace(lines: seq<Line>, i: nat, l: Line)
    requires i < |lines|
    ensures Total(lines[i := l]) == Total(lines) - Amount(lines[i]) + Amount(l)
  {
    var before, after := lines[..i], lines[i + 1..];
    assert lines == before + [lines[i]] + after;
    assert lines[i := l] == before + [l] + after;
    TotalAppend(before + [lines[i]], after);
    TotalAppend(before, [lines[i]]);
    TotalAppend(before + [l], after);
    TotalAppend(before, [l]);
    assert Total([l]) == Amount(l) by { assert [l][..0] == []; }
    assert Total([lines[i]]) == Amount(lines[i]) by { assert [lines[i]][..0] == []; }
  }

  // ---------------------------------------------------------------------------
  // addItem

  /** `addItem`: a copy of the array with a fresh blank item at the end. */
  method AddItem(items: seq<Item>) returns (r: seq<Item>)
    ensures |r| == |items| + 1 && r[..|items|] == items && fresh(r[|items|])
    ensures Lines(r) == Lines(items) + [BlankLine]
  {
    var x := new Item(BlankLine);
    r := items + [x];
    assert r[..|items|] == items;
  }

  /** The blank item adds nothing to the total. */
  lemma AddKeepsTotal(lines: seq<Line>)
    ensures Total(lines + [BlankLine]) == Total(lines)
  {
    assert (lines + [BlankLine])[..|lines|] == lines;
  }

  // ---------------------------------------------------------------------------
  // removeItem

  /** `copy.splice(index, 1)` on a copy: a negative index counts from the end, one past the end removes nothing. */
  function Spliced<T>(s: seq<T>, index: int): (r: seq<T>)
    ensures 0 <= index < |s| ==> |r| == |s| - 1
                                 && (forall i :: 0 <= i < index ==> r[i] == s[i])
                                 && (forall i :: index <= i < |r| ==> r[i] == s[i + 1])
    ensures index >= |s| ==> r == s
  {
    var start := if index < 0 then (if |s| + index < 0 then 0 else |s| + index) else (if index < |s| then index else |s|);
    if start < |s| then s[..start] + s[start + 1..] else s
  }

  /** Removing item `i` leaves exactly the others, in order. */
  lemma RemoveKeepsOthers<T>(s: seq<T>, i: nat)
    requires i < |s|
    ensures Spliced(s, i) == s[..i] + s[i + 1..]
  {
  }

  /** Removing an item lowers the total by that item's amount. */
  lemma RemoveTotal(lines: seq<Line>, i: nat)
    requires i < |lines|
    ensures Total(Spliced(lines, i)) == Total(lines) - Amount(lines[i])
  {
    var before, after := lines[..i], lines[i + 1..];
    RemoveKeepsOthers(lines, i);
    TotalAppend(before, after);
    SplitTotal(lines, i);
  }

  lemma SplitTotal(lines: seq<Line>, i: nat)
    requires i < |lines|
    ensures Total(lines) == Total(lines[..i]) + Amount(lines[i]) + Total(lines[i + 1..])
  {
    var before, after := lines[..i], lines[i + 1..];
    assert lines == (before + [lines[i]]) + after;
    TotalAppend(before + [lines[i]], after);
    TotalAppend(before, [lines[i]]);
    assert Total([lines[i]]) == Amount(lines[i]) by { assert [lines[i]][..0] == []; }
  }

  /** The item objects' values after removing one are the values with that one removed. */
  lemma LinesSpliced(items: seq<Item>, i: nat)
    requires i < |items|
    ensures Lines(Spliced(items, i)) == Spliced(Lines(items), i)
  {
  }

  // ---------------------------------------------------------------------------
  // updateItem

  /** `updateItem(index, field, value)` for each field the editor's inputs set. */
  datatype Edit = SetDescription(text: string) | SetQuantity(q: real) | SetUnitPrice(p: real)

  function Applied(l: Line, e: Edit): (r: Line)
    ensures e.SetDescription? ==> r == l.(description := e.text)
    ensures e.SetQuantity? ==> r == l.(quantity := e.q)
    ensures e.SetUnitPrice? ==> r == l.(unitPrice := e.p)
  {
    match e
    case SetDescription(t) => l.(description := t)
    case SetQuantity(q) => l.(quantity := q)
    case SetUnitPrice(p) => l.(unitPrice := p)
  }

  /**
   * `updateItem`: the new array holds the same objects, and the edit is written
   * into the object at `index`, so every array holding that object (the
   * previous state's included) sees it. An index with no item throws, since
   * the field is set on `undefined`.
   */
  method UpdateItem(items: seq<Item>, index: int, e: Edit) returns (r: seq<Item>, thrown: bool)
    modifies if 0 <= index < |items| then {items[index]} else {}
    ensures thrown <==> !(0 <= index < |items|)
    ensures r == items
    ensures !thrown ==> forall j :: 0 <= j < |items| ==>
              items[j].Value() == if items[j] == items[index] then Applied(old(items[index].Value()), e) else old(items[j].Value())
  {
    r := items;
    if !(0 <= index < |items|) {
      return r, true;
    }
    thrown := false;
    var x := items[index];
    match e
    case SetDescription(t) => x.description := t;
    case SetQuantity(q) => x.quantity := q;
    case SetUnitPrice(p) => x.unitPrice := p;
  }

  /** With distinct item objects, an edit changes exactly the one line. */
  lemma UpdateOneLine(before: seq<Line>, after: seq<Line>, index: nat, e: Edit)
    requires index < |before| && |after| == |before|
    requires after[index] == Applied(before[index], e)
    requires forall j :: 0 <= j < |before| && j != index ==> after[j] == before[j]
    ensures after == before[index := Applied(before[index], e)]
    ensures Total(after) == Total(before) - Amount(before[index]) + Amount(Applied(before[index], e))
  {
    assert after == before[index := Applied(before[index], e)];
    TotalReplace(before, index, Applied(before[index], e));
  }

  // ---------------------------------------------------------------------------
  // handleAiDescribe

  /** One item of the AI service's answer; a missing or zero number is falsy. */
  datatype Suggestion = Suggestion(description: string, quantity: Option<real>, unitPrice: Option<real>)

  /** `{ description, quantity: quantity || 1, unit_price: unit_price || 0 }`. */
  function SuggestedLines(s: seq<Suggestion>): (r: seq<Line>)
    ensures |r| == |s|
    ensures forall i :: 0 <= i < |s| ==>
              r[i].description == s[i].description
              && r[i].quantity == (if s[i].quantity.Some? && s[i].quantity.value != 0.0 then s[i].quantity.value else 1.0)
              && r[i].unitPrice == (if s[i].unitPrice.Some? && s[i].unitPrice.value != 0.0 then s[i].unitPrice.value else 0.0)
  {
    if s == [] then []
    else [Line(s[0].description, NumberOr(s[0].quantity, 1.0), NumberOr(s[0].unitPrice, 0.0))] + SuggestedLines(s[1..])
  }

  /** Fresh item objects holding `lines`, in order. */
  method NewItems(lines: seq<Line>) returns (r: seq<Item>)
    ensures Lines(r) == lines
    ensures forall i :: 0 <= i < |r| ==> fresh(r[i])
  {
    r := [];
    var i := 0;
    while i < |lines|
      invariant 0 <= i <= |lines| && |r| == i
      invariant forall j :: 0 <= j < i ==> fresh(r[j]) && r[j].Value() == lines[j]
    {
      var x := new Item(lines[i]);
      r := r + [x];
      i := i + 1;
    }
  }

  /**
   * `handleAiDescribe`: blank notes do nothing; otherwise, when the answer
   * has `items`, the suggested lines follow the existing items, which stay as
   * they were, and the notes are cleared. `answer` is `res.items` (`None` when
   * it is missing or the call failed).
   */
  method AiDescribe(items: seq<Item>, notes: string, answer: Option<seq<Suggestion>>) returns (r: seq<Item>, notesAfter: string)
    ensures Text.Blank(notes) || answer.None? ==> r == items && notesAfter == notes
    ensures !Text.Blank(notes) && answer.Some? ==>
              |r| >= |items| && r[..|items|] == items && notesAfter == ""
              && Lines(r) == Lines(items) + SuggestedLines(answer.value)
              && forall i :: |items| <= i < |r| ==> fresh(r[i])
  {
    if Text.Blank(notes) || answer.None? {
      return items, notes;
    }
    var added := NewItems(SuggestedLines(answer.value));
    r := items + added;
    assert r[..|items|] == items;
    notesAfter := "";
  }

  /** After the AI merge the total is the old total plus the suggestions' total. */
  lemma AiTotal(lines: seq<Line>, s: seq<Suggestion>)
    ensures Total(lines + SuggestedLines(s)) == Total(lines) + Total(SuggestedLines(s))
  {
    TotalAppend(lines, SuggestedLines(s));
  }

  // ---------------------------------------------------------------------------
  // Items on the wire.

  /** An item as the save payload carries it. */
  function LineJson(l: Line): Json
  {
    JObj(map["description" := JStr(l.description), "quantity" := JNum(l.quantity), "unit_price" := JNum(l.unitPrice)])
  }

  function LinesJson(ls: seq<Line>): (r: seq<Json>)
    ensures |r| == |ls| && forall i :: 0 <= i < |ls| ==> r[i] == LineJson(ls[i])
  {
    if ls == [] then [] else [LineJson(ls[0])] + LinesJson(ls[1..])
  }

  /** `parseFloat(x)`: a number is itself, text is parsed, anything else is NaN (`None`). */
  function NumberOf(j: Json): Option<real>
  {
    match j
    case JNum(n) => Some(n)
    case JStr(s) => Text.ParseFloat(s)
    case _ => None
  }

  /**
   * A loaded item, `{ ...it, unit_price: parseFloat(it.unit_price), quantity:
   * parseFloat(it.quantity) }`; `None` where the model has no value for it (a
   * missing description, a NaN).
   */
  function LineOf(j: Json): (r: Option<Line>)
    ensures r.Some? ==> j.JObj? && "description" in j.fields && j.fields["description"] == JStr(r.value.description)
                        && "quantity" in j.fields && "unit_price" in j.fields
    ensures r.Some? ==> Some(r.value.quantity) == NumberOf(j.fields["quantity"]) && Some(r.value.unitPrice) == NumberOf(j.fields["unit_price"])
  {
    if j.JObj? && "description" in j.fields && j.fields["description"].JStr?
       && "quantity" in j.fields && NumberOf(j.fields["quantity"]).Some?
       && "unit_price" in j.fields && NumberOf(j.fields["unit_price"]).Some?
    then Some(Line(j.fields["description"].s, NumberOf(j.fields["quantity"]).value, NumberOf(j.fields["unit_price"]).value))
    else None
  }

  /** `data.items.map(...)`: every item read, in order, or `None`. */
  function LinesOf(js: seq<Json>): (r: Option<seq<Line>>)
    ensures r.Some? <==> forall i :: 0 <= i < |js| ==> LineOf(js[i]).Some?
    ensures r.Some? ==> |r.value| == |js| && forall i :: 0 <= i < |js| ==> Some(r.value[i]) == LineOf(js[i])
  {
    if forall i :: 0 <= i < |js| ==> LineOf(js[i]).Some? then
      Some(seq(|js|, i requires 0 <= i < |js| => LineOf(js[i]).value))
    else None
  }

  /** The items a payload sends read back as the same lines. */
  lemma LinesRoundTrip(ls: seq<Line>)
    ensures LinesOf(LinesJson(ls)) == Some(ls)
  {
    var js := LinesJson(ls);
    forall i | 0 <= i < |ls|
      ensures LineOf(js[i]) == Some(ls[i])
    {
      LineRoundTrip(ls[i]);
    }
    var r := LinesOf(js);
    assert r.Some?;
    assert r.value == ls;
  }

  /** One item of the payload reads back as its line. */
  lemma LineRoundTrip(l: Line)
    ensures LineOf(LineJson(l)) == Some(l)
  {
    var fields := LineJson(l).fields;
    assert fields["description"] == JStr(l.description);
    assert fields["quantity"] == JNum(l.quantity) && fields["unit_price"] == JNum(l.unitPrice);
  }
}
