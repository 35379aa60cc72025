/**
 * The JavaScript numbers the client pages compute with: a finite value or
 * NaN, and how `parseFloat` and `parseInt` read a JSON value.
 */
module JsNumber {
  import opened Wrappers
  import Text
  import opened MockApi

  /** A JavaScript number as far as the pages compute: finite, or NaN. */
  datatype Num = Finite(v: real) | NaN

  /** `a + b`: NaN as soon as either is. */
  function Plus(a: Num, b: Num): (r: Num)
    ensures r.NaN? <==> a.NaN? || b.NaN?
    ensures r.Finite? ==> r.v == a.v + b.v
  {
    if a.NaN? || b.NaN? then NaN else Finite(a.v + b.v)
  }

  /** `parseFloat(text)`: NaN when the text does not start with a number. */
  function ParsedNum(s: string): (r: Num)
    ensures r.NaN? <==> Text.ParseFloat(s).None?
    ensures r.Finite? ==> Text.ParseFloat(s) == Some(r.v)
  {
    var p := Text.ParseFloat(s);
    if p.None? then NaN else Finite(p.value)
  }

  /** `parseInt(text)`: NaN when the text does not start with digits. */
  function IntNum(s: string): (r: Num)
    ensures r.NaN? <==> Text.ParseInt(s).None?
  {
    var p := Text.ParseInt(s);
    if p.None? then NaN else Finite(p.value as real)
  }

  /** The integer part of a number, as `parseInt(n.toString())` keeps it. */
  function Truncated(n: real): int
  {
    if n >= 0.0 then n.Floor else -((-n).Floor)
  }

  /** `parseInt(x.toString())` of a count: `None` where `toString` throws (null or missing) or the value is not rendered. */
  function ParseIntOf(x: Option<Json>): (r: Option<Num>)
    ensures x.None? || x == Some(JNull) ==> r.None?
    ensures x.Some? && x.value.JStr? ==> r == Some(IntNum(x.value.s))
    ensures x.Some? && x.value.JNum? && x.value.n >= 0.0 ==> r == Some(Finite(x.value.n.Floor as real))
  {
    if x.None? then None
    else match x.value
      case JStr(s) => Some(IntNum(s))
      case JNum(n) => Some(Finite(Truncated(n) as real))
      case JBool(_) => Some(NaN)
      case _ => None
  }

  /** `parseFloat(x)`: NaN for null, a missing member and a boolean. */
  function ParseFloatOf(x: Option<Json>): (r: Option<Num>)
    ensures x.None? || x == Some(JNull) ==> r == Some(NaN)
    ensures x.Some? && x.value.JNum? ==> r == Some(Finite(x.value.n))
    ensures x.Some? && x.value.JStr? ==> r == Some(ParsedNum(x.value.s))
  {
    if x.None? then Some(NaN)
    else match x.value
      case JStr(s) => Some(ParsedNum(s))
      case JNum(n) => Some(Finite(n))
      case JNull => Some(NaN)
      case JBool(_) => Some(NaN)
      case _ => None
  }

  /**
   * `parseFloat(value)` of any present value, which reads `String(value)`:
   * a number as itself and text as parsed. An array's text is its elements'
   * joined by ',', and no number contains a ',', so it reads as its first
   * element (an empty array, or an empty or null first element, as NaN);
   * null, a boolean and an object ('[object Object]') read NaN.
   */
  function ParseFloatValue(j: Json): (r: Num)
    ensures ParseFloatOf(Some(j)).Some? ==> r == ParseFloatOf(Some(j)).value
    ensures j.JNull? || j.JBool? || j.JObj? || j == JArr([]) ==> r.NaN?
  {
    match j
      case JNum(n) => Finite(n)
      case JStr(s) => ParsedNum(s)
      case JArr(elems) => if elems == [] then NaN else ParseFloatValue(elems[0])
      case _ => NaN
  }

  /** `parseFloat(x || 0)`: a falsy or missing value reads 0. */
  function ParseFloatOrZero(x: Option<Json>): (r: Option<Num>)
    ensures x.None? || !Truthy(x.value) ==> r == Some(Finite(0.0))
    ensures x.Some? && Truthy(x.value) ==> r == ParseFloatOf(x)
  {
    if x.None? || !Truthy(x.value) then Some(Finite(0.0)) else ParseFloatOf(x)
  }

  /** A nullable text column as the driver sends it. */
  function TextJson(x: Option<string>): (j: Json)
    ensures x.None? <==> j == JNull
    ensures x.Some? ==> j == JStr(x.value)
  {
    if x.Some? then JStr(x.value) else JNull
  }

  /** A nullable integer column, which node-postgres sends as a JSON number. */
  function NumJson(x: Option<real>): (j: Json)
    ensures x.None? <==> j == JNull
    ensures x.Some? ==> j == JNum(x.value)
  {
    if x.Some? then JNum(x.value) else JNull
  }

  /**
   * A nullable NUMERIC column, or a `SUM` of one, as node-postgres sends it:
   * decimal text with two places such as '1200.00', or null. Non-empty text
   * is truthy, so '0.00' is too.
   */
  function DecimalJson(x: Option<real>): (j: Json)
    ensures x.None? <==> j == JNull
    ensures x.Some? ==> j == JStr(Text.CentsText(x.value)) && Truthy(j)
  {
    if x.Some? then JStr(Text.CentsText(x.value)) else JNull
  }

  /** A value a two-place NUMERIC column can hold: null, or whole cents. */
  predicate Cents(x: Option<real>)
  {
    x.None? || Text.WholeCents(x.value)
  }

  /** `parseFloat` reads a decimal column back: its value, or NaN for null. */
  lemma DecimalReadsBack(x: Option<real>)
    requires Cents(x)
    ensures ParseFloatOf(Some(DecimalJson(x))) == Some(if x.Some? then Finite(x.value) else NaN)
  {
    if x.Some? {
      Text.ParseFloatOfCents(x.value);
    }
  }

  /** `parseFloat(x || 0)` of a decimal column: its value, or 0 for null, a zero value included. */
  lemma DecimalOrZero(x: Option<real>)
    requires Cents(x)
    ensures ParseFloatOrZero(Some(DecimalJson(x))) == Some(Finite(if x.Some? then x.value else 0.0))
  {
    DecimalReadsBack(x);
  }
}
