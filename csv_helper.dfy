/**
 * server/utils/csvHelper.js: `escapeCSVValue` quotes a value that holds a
 * comma, a double quote or a newline (doubling the quotes inside), and
 * `jsonToCSV` writes a header row of the first object's keys and one row per
 * object, joined by newlines.
 *
 * The partner of the writer is an RFC 4180 style reader (`ParseDocument`):
 * reading back what `jsonToCSV` wrote gives the header keys and each row's
 * cell texts.
 */
module CsvHelper {
  import Text

  /**
   * A JSON value as `escapeCSVValue` sees it: `undefined` (a missing key),
   * `null`, or any other value through its `String(value)` text.
   */
  datatype Value = Undefined | Null | Shown(text: string)

  /** A row object: its keys in insertion order, each with its value. */
  type Row = seq<(string, Value)>

  function Keys(row: Row): (ks: seq<string>)
    ensures |ks| == |row| && forall i :: 0 <= i < |row| ==> ks[i] == row[i].0
  {
    if row == [] then [] else [row[0].0] + Keys(row[1..])
  }

  /** `row[key]`: the value of the key, `undefined` when the row lacks it. */
  function Lookup(row: Row, key: string): (v: Value)
    ensures v != Undefined ==> exists i :: 0 <= i < |row| && row[i] == (key, v)
    ensures (forall i :: 0 <= i < |row| ==> row[i].0 != key) ==> v == Undefined
  {
    if row == [] then Undefined
    else if row[0].0 == key then row[0].1
    else Lookup(row[1..], key)
  }

  /** The text a cell stands for: empty for `null` and `undefined`. */
  function CellText(v: Value): string
  {
    match v
    case Shown(text) => text
    case _ => ""
  }

  predicate NeedsQuotes(s: string)
  {
    ',' in s || '"' in s || '\n' in s
  }

  /** `s.replace(/"/g, '""')`. */
  function DoubleQuotes(s: string): (r: string)
    ensures |r| >= |s|
  {
    if s == [] then []
    else if s[0] == '"' then "\"\"" + DoubleQuotes(s[1..])
    else [s[0]] + DoubleQuotes(s[1..])
  }

  /** `escapeCSVValue` on a value's text. */
  function EscapeText(s: string): (r: string)
    ensures !NeedsQuotes(s) ==> r == s
    ensures NeedsQuotes(s) ==> |r| >= 2 && r[0] == '"' && r[|r| - 1] == '"'
  {
    if NeedsQuotes(s) then "\"" + DoubleQuotes(s) + "\"" else s
  }

  /** `escapeCSVValue(value)`. */
  function EscapeValue(v: Value): (r: string)
    ensures v.Null? || v.Undefined? ==> r == ""
    ensures v.Shown? ==> (r == v.text <==> !NeedsQuotes(v.text))
  {
    match v
    case Shown(text) => EscapeText(text)
    case _ => ""
  }

  function EscapeAll(fields: seq<string>): (r: seq<string>)
    ensures |r| == |fields| && forall i :: 0 <= i < |fields| ==> r[i] == EscapeText(fields[i])
  {
    if fields == [] then [] else [EscapeText(fields[0])] + EscapeAll(fields[1..])
  }

  /** One CSV line: the escaped fields joined by commas. */
  function EncodeRecord(fields: seq<string>): string
  {
    Text.Join(EscapeAll(fields), ",")
  }

  /** The cell texts of a row, in header order. */
  function Cells(row: Row, headers: seq<string>): (cells: seq<string>)
    ensures |cells| == |headers|
    ensures forall i :: 0 <= i < |headers| ==> cells[i] == CellText(Lookup(row, headers[i]))
  {
    if headers == [] then [] else [CellText(Lookup(row, headers[0]))] + Cells(row, headers[1..])
  }

  /** `headers.map(h => escapeCSVValue(row[h])).join(',')`, one line per row. */
  function DataRows(data: seq<Row>, headers: seq<string>): (lines: seq<string>)
    ensures |lines| == |data|
  {
    if data == [] then [] else [EncodeRecord(Cells(data[0], headers))] + DataRows(data[1..], headers)
  }

  /** `jsonToCSV(data)`. */
  function JsonToCsv(data: seq<Row>): (csv: string)
    ensures csv == "" <==> data == []
  {
    if data == [] then ""
    else
      var headers := Keys(data[0]);
      var lines := [EncodeRecord(headers)] + DataRows(data, headers);
      JoinedNonEmpty(lines, "\n");
      Text.Join(lines, "\n")
  }

  lemma JoinedNonEmpty(parts: seq<string>, sep: string)
    requires |parts| >= 2 && sep != ""
    ensures Text.Join(parts, sep) != ""
  {
  }

  // ---------------------------------------------------------------------------
  // The reader: quoted fields may hold commas, newlines and doubled quotes.

  function ParseUnquoted(s: string): (r: (string, string))
    ensures r.0 + r.1 == s
  {
    if s == [] || s[0] == ',' || s[0] == '\n' then ("", s)
    else
      var (f, rest) := ParseUnquoted(s[1..]);
      ([s[0]] + f, rest)
  }

  /** The rest of a quoted field, after its opening quote. */
  function ParseQuoted(s: string): (r: (string, string))
    ensures |r.1| <= |s|
  {
    if s == [] then ("", [])
    else if s[0] == '"' then
      if |s| > 1 && s[1] == '"' then
        var (f, rest) := ParseQuoted(s[2..]);
        ("\"" + f, rest)
      else ("", s[1..])
    else
      var (f, rest) := ParseQuoted(s[1..]);
      ([s[0]] + f, rest)
  }

  function ParseField(s: string): (r: (string, string))
    ensures |r.1| <= |s|
  {
    if |s| > 0 && s[0] == '"' then ParseQuoted(s[1..]) else ParseUnquoted(s)
  }

  function ParseRecord(s: string): (r: (seq<string>, string))
    ensures |r.1| <= |s|
    decreases |s|
  {
    var (f, rest) := ParseField(s);
    if |rest| > 0 && rest[0] == ',' then
      var (fs, after) := ParseRecord(rest[1..]);
      ([f] + fs, after)
    else ([f], rest)
  }

  function ParseDocument(s: string): seq<seq<string>>
    decreases |s|
  {
    var (record, rest) := ParseRecord(s);
    if |rest| > 0 && rest[0] == '\n' then [record] + ParseDocument(rest[1..]) else [record]
  }

  // ---------------------------------------------------------------------------
  // Round trip.

  lemma {:induction false} QuotedRoundTrip(f: string, tail: string)
    requires tail == [] || tail[0] != '"'
    ensures ParseQuoted(DoubleQuotes(f) + "\"" + tail) == (f, tail)
  {
    var s := DoubleQuotes(f) + "\"" + tail;
    if f == [] {
      assert s == "\"" + tail;
      assert s[1..] == tail;
    } else if f[0] == '"' {
      QuotedRoundTrip(f[1..], tail);
      assert s == "\"\"" + (DoubleQuotes(f[1..]) + "\"" + tail);
      assert s[2..] == DoubleQuotes(f[1..]) + "\"" + tail;
      assert "\"" + f[1..] == f;
    } else {
      QuotedRoundTrip(f[1..], tail);
      assert s == [f[0]] + (DoubleQuotes(f[1..]) + "\"" + tail);
      assert s[1..] == DoubleQuotes(f[1..]) + "\"" + tail;
      assert [f[0]] + f[1..] == f;
    }
  }

  lemma {:induction false} UnquotedRoundTrip(f: string, tail: string)
    requires ',' !in f && '\n' !in f
    requires tail == [] || tail[0] == ',' || tail[0] == '\n'
    ensures ParseUnquoted(f + tail) == (f, tail)
  {
    if f == [] {
      assert f + tail == tail;
    } else {
      assert (f + tail)[1..] == f[1..] + tail;
      assert f[0] in f;
      UnquotedRoundTrip(f[1..], tail);
      assert [f[0]] + f[1..] == f;
    }
  }

  lemma FieldRoundTrip(f: string, tail: string)
    requires tail == [] || tail[0] == ',' || tail[0] == '\n'
    ensures ParseField(EscapeText(f) + tail) == (f, tail)
  {
    if NeedsQuotes(f) {
      var s := EscapeText(f) + tail;
      assert s == "\"" + (DoubleQuotes(f) + "\"" + tail);
      assert s[1..] == DoubleQuotes(f) + "\"" + tail;
      QuotedRoundTrip(f, tail);
    } else {
      if f != [] { assert f[0] in f; }
      UnquotedRoundTrip(f, tail);
    }
  }

  lemma {:induction false} RecordRoundTrip(fields: seq<string>, tail: string)
    requires |fields| >= 1
    requires tail == [] || tail[0] == '\n'
    ensures ParseRecord(EncodeRecord(fields) + tail) == (fields, tail)
  {
    var escaped := EscapeAll(fields);
    if |fields| == 1 {
      assert EncodeRecord(fields) == EscapeText(fields[0]);
      FieldRoundTrip(fields[0], tail);
      assert ParseField(EncodeRecord(fields) + tail) == (fields[0], tail);
      assert [fields[0]] == fields;
    } else {
      var restLine := EncodeRecord(fields[1..]) + tail;
      assert EscapeAll(fields[1..]) == escaped[1..];
      assert EncodeRecord(fields) == EscapeText(fields[0]) + "," + EncodeRecord(fields[1..]);
      var s := EncodeRecord(fields) + tail;
      assert s == EscapeText(fields[0]) + ("," + restLine);
      FieldRoundTrip(fields[0], "," + restLine);
      assert ("," + restLine)[1..] == restLine;
      RecordRoundTrip(fields[1..], tail);
      assert [fields[0]] + fields[1..] == fields;
    }
  }

  function EncodeAll(records: seq<seq<string>>): (lines: seq<string>)
    ensures |lines| == |records|
  {
    if records == [] then [] else [EncodeRecord(records[0])] + EncodeAll(records[1..])
  }

  lemma {:induction false} DocumentRoundTrip(records: seq<seq<string>>)
    requires |records| >= 1
    requires forall i :: 0 <= i < |records| ==> |records[i]| >= 1
    ensures ParseDocument(Text.Join(EncodeAll(records), "\n")) == records
  {
    if |records| == 1 {
      assert Text.Join(EncodeAll(records), "\n") == EncodeRecord(records[0]);
      RecordRoundTrip(records[0], "");
      assert EncodeRecord(records[0]) + "" == EncodeRecord(records[0]);
    } else {
      var rest := Text.Join(EncodeAll(records[1..]), "\n");
      assert EncodeAll(records)[1..] == EncodeAll(records[1..]);
      var s := Text.Join(EncodeAll(records), "\n");
      assert s == EncodeRecord(records[0]) + ("\n" + rest);
      RecordRoundTrip(records[0], "\n" + rest);
      assert ("\n" + rest)[1..] == rest;
      DocumentRoundTrip(records[1..]);
      assert [records[0]] + records[1..] == records;
    }
  }

  /** The cell texts of every row, in header order. */
  function AllCells(data: seq<Row>, headers: seq<string>): (cells: seq<seq<string>>)
    ensures |cells| == |data|
    ensures forall i :: 0 <= i < |data| ==> cells[i] == Cells(data[i], headers)
  {
    if data == [] then [] else [Cells(data[0], headers)] + AllCells(data[1..], headers)
  }

  lemma {:induction false} DataRowsEncodeCells(data: seq<Row>, headers: seq<string>)
    ensures DataRows(data, headers) == EncodeAll(AllCells(data, headers))
  {
    if data != [] {
      DataRowsEncodeCells(data[1..], headers);
    }
  }

  /**
   * Reading back the text `jsonToCSV` writes gives the first row's keys, then
   * each row's cell texts in that key order (when the first row has a key).
   */
  lemma JsonToCsvRoundTrip(data: seq<Row>)
    requires |data| >= 1 && |data[0]| >= 1
    ensures ParseDocument(JsonToCsv(data)) == [Keys(data[0])] + AllCells(data, Keys(data[0]))
  {
    var records := [Keys(data[0])] + AllCells(data, Keys(data[0]));
    CsvTextEncodesRecords(data);
    assert forall i :: 1 <= i < |records| ==> records[i] == Cells(data[i - 1], Keys(data[0]));
    DocumentRoundTrip(records);
  }

  /** The text `jsonToCSV` writes is the header line and the data lines, joined by newlines. */
  lemma CsvTextEncodesRecords(data: seq<Row>)
    requires |data| >= 1
    ensures JsonToCsv(data) == Text.Join(EncodeAll([Keys(data[0])] + AllCells(data, Keys(data[0]))), "\n")
  {
    var headers := Keys(data[0]);
    var records := [headers] + AllCells(data, headers);
    DataRowsEncodeCells(data, headers);
    assert EncodeAll(records) == [EncodeRecord(headers)] + DataRows(data, headers) by {
      assert EncodeAll(records)[1..] == EncodeAll(records[1..]);
      assert records[1..] == AllCells(data, headers);
    }
  }

  /** Unquoted fields pass through unchanged; an empty value stays empty. */
  lemma PlainValuesUnquoted(s: string)
    requires !NeedsQuotes(s)
    ensures EscapeValue(Shown(s)) == s
  {
  }
}
