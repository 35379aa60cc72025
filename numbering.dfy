/**
 * server/services/numberingService.js: the next invoice or estimate number of
 * a user, `{prefix}{n}` with `n` padded to four digits, continuing from the
 * user's most recently inserted number that carries the prefix.
 */
module Numbering {
  import opened Wrappers
  import Text
  import Tables

  const InvoiceDefaultPrefix: string := "INV"
  const EstimateDefaultPrefix: string := "EST"
  const DefaultStartingNumber: int := 1000
  const NumberWidth: nat := 4

  /** A JavaScript number as far as `parseInt` and `+ 1` can make it. */
  datatype JsNumber = Finite(n: int) | NaN

  /** The columns the numbering query reads from an invoice or estimate row. */
  datatype NumberedRow = NumberedRow(userId: Option<int>, number: Option<string>)

  /** `settings?.prefix || default`. */
  function PrefixFor(setting: Option<string>, defaultPrefix: string): string
  {
    TextOr(setting, defaultPrefix)
  }

  /** `settings?.starting_number || 1000`. */
  function StartFor(setting: Option<int>): int
  {
    IntOr(setting, DefaultStartingNumber)
  }

  /** Ids of the user's rows whose number matches `LIKE '{prefix}%'`. */
  function Candidates(rows: map<int, NumberedRow>, user: int, prefix: string): set<int>
  {
    set id | id in rows && rows[id].userId == Some(user) && rows[id].number.Some?
                        && prefix <= rows[id].number.value
  }

  /** `ORDER BY id DESC LIMIT 1` over the candidates: the latest such number. */
  function LatestNumber(rows: map<int, NumberedRow>, user: int, prefix: string): (r: Option<string>)
    ensures r.None? <==> Candidates(rows, user, prefix) == {}
    ensures r.Some? ==> exists id :: id in Candidates(rows, user, prefix) && rows[id].number == r
                          && forall other :: other in Candidates(rows, user, prefix) ==> other <= id
    ensures r.Some? ==> prefix <= r.value
  {
    var ids := Candidates(rows, user, prefix);
    if ids == {} then None else rows[Tables.MaxId(ids)].number
  }

  /** `lastNumber.replace(prefix, '').replace(/[^0-9]/g, '')`. */
  function NumberPart(last: string, prefix: string): (d: string)
    ensures Text.AllDigits(d)
  {
    Text.KeepDigits(Text.RemoveFirst(last, prefix))
  }

  /** `parseInt` of a string of digits. */
  function ParseDigits(d: string): (r: JsNumber)
    requires Text.AllDigits(d)
    ensures r.NaN? <==> d == ""
    ensures r.Finite? ==> r.n == Text.DigitsValue(d) && r.n >= 0
  {
    if d == "" then NaN else Finite(Text.DigitsValue(d))
  }

  function Increment(x: JsNumber): JsNumber
  {
    match x
    case NaN => NaN
    case Finite(n) => Finite(n + 1)
  }

  /** `String(x).padStart(4, '0')`. */
  function Render(x: JsNumber): string
  {
    match x
    case NaN => Text.PadStart("NaN", NumberWidth, '0')
    case Finite(n) => Text.PadStart(Text.IntToString(n), NumberWidth, '0')
  }

  /** The four-digit rendering of a natural number, as the service writes it. */
  function Formatted(n: nat): string
  {
    Text.PadStart(Text.NatToString(n), NumberWidth, '0')
  }

  /** The number that follows `latest` (or the starting number when there is none). */
  function NextNumber(prefix: string, start: int, latest: Option<string>): (r: string)
    ensures prefix <= r
    ensures latest.None? ==> r == prefix + Render(Finite(start))
    ensures latest.Some? ==> r == prefix + Render(Increment(ParseDigits(NumberPart(latest.value, prefix))))
  {
    var next := if latest.None? then Finite(start)
                else Increment(ParseDigits(NumberPart(latest.value, prefix)));
    prefix + Render(next)
  }

  /**
   * `generateInvoiceNumber` / `generateEstimateNumber` once their two queries
   * have run: the settings row's prefix and starting number (when the user has
   * one) and the user's numbered rows.
   */
  function Generate(prefixSetting: Option<string>, startSetting: Option<int>, defaultPrefix: string,
                    rows: map<int, NumberedRow>, user: int): (r: string)
    ensures PrefixFor(prefixSetting, defaultPrefix) <= r
    ensures Candidates(rows, user, PrefixFor(prefixSetting, defaultPrefix)) == {}
            ==> r == PrefixFor(prefixSetting, defaultPrefix) + Render(Finite(StartFor(startSetting)))
  {
    var prefix := PrefixFor(prefixSetting, defaultPrefix);
    NextNumber(prefix, StartFor(startSetting), LatestNumber(rows, user, prefix))
  }

  // ---------------------------------------------------------------------------
  // Properties.

  lemma {:induction false} RemovePrefix(prefix: string, rest: string)
    ensures Text.RemoveFirst(prefix + rest, prefix) == rest
  {
    var s := prefix + rest;
    assert s[0..|prefix|] == prefix;
    assert Text.OccursAt(s, prefix, 0);
    assert Text.IndexOf(s, prefix) == 0;
    assert s[|prefix|..] == rest;
  }

  /**
   * A number the service wrote itself is followed by the next one: after
   * `{prefix}{n padded}` comes `{prefix}{n + 1 padded}`.
   */
  lemma {:induction false} NextAfterFormatted(prefix: string, start: int, n: nat)
    ensures NextNumber(prefix, start, Some(prefix + Formatted(n))) == prefix + Formatted(n + 1)
  {
    var body := Formatted(n);
    RemovePrefix(prefix, body);
    Text.PadStartDigits(Text.NatToString(n), NumberWidth);
    Text.NatToStringValue(n);
    assert NumberPart(prefix + body, prefix) == body;
  }

  /** With no earlier number the series starts at the starting number. */
  lemma FirstNumber(prefix: string, start: nat)
    ensures NextNumber(prefix, start, None) == prefix + Formatted(start)
  {
  }

  /** A latest number with no digit after its prefix gives `{prefix}0NaN`. */
  lemma NoDigitsGivesNaN(prefix: string, start: int, last: string)
    requires Text.KeepDigits(Text.RemoveFirst(last, prefix)) == ""
    ensures NextNumber(prefix, start, Some(last)) == prefix + "0NaN"
  {
    assert Text.Repeat('0', 1) == "0";
  }

  lemma DigitsOfNaNText()
    ensures Text.KeepDigits("0NaN") == "0"
  {
    assert "0NaN"[..3] == "0Na" && "0Na"[..2] == "0N" && "0N"[..1] == "0" && "0"[..0] == "";
    assert Text.KeepDigits("0") == "0";
    assert Text.KeepDigits("0N") == "0";
    assert Text.KeepDigits("0Na") == "0";
  }

  lemma RenderOne()
    ensures Render(Finite(1)) == "0001"
  {
    assert Text.IntToString(1) == "1";
    assert Text.Repeat('0', 3) == "000";
  }

  /** The number after `{prefix}0NaN` is `{prefix}0001`: the series restarts. */
  lemma {:induction false} AfterNaNRestarts(prefix: string, start: int)
    ensures NextNumber(prefix, start, Some(prefix + "0NaN")) == prefix + "0001"
  {
    RemovePrefix(prefix, "0NaN");
    DigitsOfNaNText();
    assert NumberPart(prefix + "0NaN", prefix) == "0";
    assert "0"[..0] == "";
    assert ParseDigits("0") == Finite(0);
    RenderOne();
  }

  lemma DigitsOfDashedNumber()
    ensures Text.KeepDigits("-1001") == "1001"
  {
    assert "-1001"[..4] == "-100" && "-100"[..3] == "-10" && "-10"[..2] == "-1" && "-1"[..1] == "-";
    assert "-"[..0] == "";
    assert Text.KeepDigits("-") == "";
    assert Text.KeepDigits("-1") == "1";
    assert Text.KeepDigits("-10") == "10";
    assert Text.KeepDigits("-100") == "100";
  }

  /** The dash of a hand-written `INV-1001` is dropped: the next number is `INV1002`. */
  lemma DashDropped()
    ensures NextNumber("INV", 1000, Some("INV-1001")) == "INV1002"
  {
    DashedNumberPart();
    DashedNumberParsed();
    DashedNumberRendered();
  }

  lemma DashedNumberPart()
    ensures NumberPart("INV-1001", "INV") == "1001"
  {
    assert "INV-1001" == "INV" + "-1001";
    RemovePrefix("INV", "-1001");
    DigitsOfDashedNumber();
  }

  lemma DashedNumberParsed()
    ensures Text.AllDigits("1001") && ParseDigits("1001") == Finite(1001)
  {
    NatToStringSmall();
    Text.NatToStringValue(1001);
  }

  lemma DashedNumberRendered()
    ensures Render(Finite(1002)) == "1002"
  {
    NatToStringSmall();
  }

  lemma NatToStringSmall()
    ensures Text.NatToString(1001) == "1001" && Text.NatToString(1002) == "1002"
  {
    assert Text.NatToString(1) == "1";
    assert Text.NatToString(10) == "10";
    assert Text.NatToString(100) == "100";
  }
}
