/**
 * The list search of the Clients and Products pages (src/pages/Clients.tsx,
 * src/pages/Products.tsx): a row matches when the search occurs, ignoring
 * case, in its name or in a second text field that the server may leave null.
 */
module Search {
  import opened Wrappers
  import Text
  import Grouping

  /** `text.toLowerCase().includes(search.toLowerCase())`. */
  predicate Mentions(text: string, search: string)
  {
    Text.Contains(Text.ToLower(text), Text.ToLower(search))
  }

  /** The empty search occurs in every text. */
  lemma MentionsEmpty(text: string)
    ensures Mentions(text, "")
  {
    Text.ContainsEmpty(Text.ToLower(text));
  }

  /**
   * One row of the filter as written: `name.toLowerCase().includes(q) ||
   * other.toLowerCase().includes(q)`. The name is tested first; only when it
   * misses is the second field lower-cased, which throws (`None`) when it is
   * null.
   */
  function VisibleAsWritten(name: string, other: Option<string>, search: string): (r: Option<bool>)
    ensures r.None? <==> !Mentions(name, search) && other.None?
    ensures r.Some? ==> (r.value <==> Matches(name, other, search))
  {
    if Mentions(name, search) then Some(true)
    else if other.None? then None
    else Some(Mentions(other.value, search))
  }

  /** The intended test: a null second field matches nothing. */
  predicate Matches(name: string, other: Option<string>, search: string)
  {
    Mentions(name, search) || (other.Some? && Mentions(other.value, search))
  }

  /** The filter as written; `None` when it throws and the page fails to render. */
  function ShownAsWritten<T(!new)>(rows: seq<T>, name: T -> string, other: T -> Option<string>, search: string): (r: Option<seq<T>>)
    ensures r.None? <==> exists i :: 0 <= i < |rows| && VisibleAsWritten(name(rows[i]), other(rows[i]), search).None?
    ensures r.Some? ==> r.value == Shown(rows, name, other, search)
  {
    if rows == [] then Some([])
    else
      var head := VisibleAsWritten(name(rows[0]), other(rows[0]), search);
      var tail := ShownAsWritten(rows[1..], name, other, search);
      assert forall i :: 1 <= i < |rows| ==> rows[i] == rows[1..][i - 1];
      if head.None? || tail.None? then None
      else Some((if head.value then [rows[0]] else []) + tail.value)
  }

  /** The filter with a null second field treated as not matching: it never throws. */
  function Shown<T(!new)>(rows: seq<T>, name: T -> string, other: T -> Option<string>, search: string): (r: seq<T>)
    ensures forall x :: x in r <==> x in rows && Matches(name(x), other(x), search)
  {
    Grouping.Where(rows, x => Matches(name(x), other(x), search))
  }

  /** The empty search shows every row, without touching the second field. */
  lemma EmptySearchShowsAll<T(!new)>(rows: seq<T>, name: T -> string, other: T -> Option<string>)
    ensures ShownAsWritten(rows, name, other, "") == Some(rows)
  {
    forall x | x in rows
      ensures Matches(name(x), other(x), "")
    {
      MentionsEmpty(name(x));
    }
    Grouping.WhereAll(rows, x => Matches(name(x), other(x), ""));
  }

  /** A search that misses the name of a row whose second field is null makes the page throw. */
  lemma SearchCrashesOnNull<T(!new)>(rows: seq<T>, name: T -> string, other: T -> Option<string>, search: string, i: nat)
    requires i < |rows| && other(rows[i]).None? && !Mentions(name(rows[i]), search)
    ensures ShownAsWritten(rows, name, other, search).None?
  {
  }
}
