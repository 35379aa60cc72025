/**
 * Character and string helpers that stand in for the JavaScript and Rust
 * string library calls the model needs (`toLowerCase`, `includes`, `replace`,
 * `padStart`, `String(n)`, `join`, `split`).
 */
module Text {
  import opened Wrappers

  predicate IsDigit(c: char) { '0' <= c <= '9' }

  /** A character of the regular-expression class `\w`. */
  predicate IsWordChar(c: char)
  {
    IsDigit(c) || ('a' <= c <= 'z') || ('A' <= c <= 'Z') || c == '_'
  }

  predicate AllDigits(s: string) { forall i :: 0 <= i < |s| ==> IsDigit(s[i]) }

  function DigitValue(c: char): (v: nat)
    requires IsDigit(c)
    ensures v < 10
  {
    (c as int) - ('0' as int)
  }

  function DigitChar(d: nat): (c: char)
    requires d < 10
    ensures IsDigit(c) && DigitValue(c) == d
  {
    (('0' as int) + d) as char
  }

  /** ASCII lower-casing of one character. */
  function LowerChar(c: char): char
  {
    if 'A' <= c <= 'Z' then ((c as int) - ('A' as int) + ('a' as int)) as char else c
  }

  function ToLower(s: string): (r: string)
    ensures |r| == |s|
    ensures forall i :: 0 <= i < |s| ==> r[i] == LowerChar(s[i])
  {
    seq(|s|, i requires 0 <= i < |s| => LowerChar(s[i]))
  }

  /** `pat` occurs in `s` starting at position `i`. */
  predicate OccursAt(s: string, pat: string, i: int)
  {
    0 <= i && i + |pat| <= |s| && s[i..i + |pat|] == pat
  }

  /** `s.includes(sub)`: `sub` occurs somewhere in `s`. */
  predicate Contains(s: string, sub: string)
  {
    exists i | 0 <= i <= |s| :: OccursAt(s, sub, i)
  }

  /** Position of the first occurrence of `pat` in `s` at or after `from`, or -1. */
  function IndexOfFrom(s: string, pat: string, from: nat): (r: int)
    requires from <= |s|
    ensures r == -1 || (from <= r && OccursAt(s, pat, r))
    ensures r != -1 ==> forall j :: from <= j < r ==> !OccursAt(s, pat, j)
    ensures r == -1 ==> forall j :: from <= j ==> !OccursAt(s, pat, j)
    decreases |s| - from
  {
    if |s| - from < |pat| then -1
    else if s[from..from + |pat|] == pat then from
    else IndexOfFrom(s, pat, from + 1)
  }

  /** `s.indexOf(pat)`. */
  function IndexOf(s: string, pat: string): int
  {
    IndexOfFrom(s, pat, 0)
  }

  /** `s.replace(pat, '')` with a string pattern: only the first occurrence goes. */
  function RemoveFirst(s: string, pat: string): (r: string)
    ensures IndexOf(s, pat) == -1 ==> r == s
    ensures IndexOf(s, pat) != -1 ==> r == s[..IndexOf(s, pat)] + s[IndexOf(s, pat) + |pat|..]
  {
    var i := IndexOf(s, pat);
    if i == -1 then s else s[..i] + s[i + |pat|..]
  }

  /** `s.replace(/\D/g, '')`: the digits of `s`, in order. */
  function KeepDigits(s: string): (r: string)
    ensures AllDigits(r)
    ensures |r| <= |s|
    ensures AllDigits(s) ==> r == s
  {
    if s == [] then []
    else if IsDigit(s[|s| - 1]) then KeepDigits(s[..|s| - 1]) + [s[|s| - 1]]
    else KeepDigits(s[..|s| - 1])
  }

  /** The number a string of decimal digits denotes (leading zeros allowed). */
  function DigitsValue(s: string): (v: nat)
    requires AllDigits(s)
  {
    if s == [] then 0 else DigitsValue(s[..|s| - 1]) * 10 + DigitValue(s[|s| - 1])
  }

  /** `String(n)` for a non-negative integer: decimal, no leading zeros. */
  function NatToString(n: nat): (r: string)
    ensures |r| >= 1 && AllDigits(r)
    ensures n >= 10 ==> r[0] != '0'
  {
    if n < 10 then [DigitChar(n)] else NatToString(n / 10) + [DigitChar(n % 10)]
  }

  /** `String(n)` for any integer. */
  function IntToString(n: int): string
  {
    if n < 0 then "-" + NatToString(-n) else NatToString(n)
  }

  function Repeat(c: char, n: nat): (r: string)
    ensures |r| == n && forall i :: 0 <= i < n ==> r[i] == c
  {
    if n == 0 then [] else [c] + Repeat(c, n - 1)
  }

  /** `s.padStart(width, c)`. */
  function PadStart(s: string, width: nat, c: char): (r: string)
    ensures |s| >= width ==> r == s
    ensures |s| < width ==> r == Repeat(c, width - |s|) + s
  {
    if |s| >= width then s else Repeat(c, width - |s|) + s
  }

  /** `parts.join(sep)`. */
  function Join(parts: seq<string>, sep: string): string
  {
    if parts == [] then ""
    else if |parts| == 1 then parts[0]
    else parts[0] + sep + Join(parts[1..], sep)
  }

  /** The fields of `s.split(c)`, in order. */
  function Split(s: string, c: char): (r: seq<string>)
    ensures |r| >= 1
    decreases |s|
  {
    if s == [] then [""]
    else if s[0] == c then [""] + Split(s[1..], c)
    else
      var rest := Split(s[1..], c);
      [[s[0]] + rest[0]] + rest[1..]
  }

  // ---------------------------------------------------------------------------
  // Facts about the digit helpers.

  lemma {:induction false} NatToStringValue(n: nat)
    ensures DigitsValue(NatToString(n)) == n
  {
    if n >= 10 {
      var s := NatToString(n / 10) + [DigitChar(n % 10)];
      assert s[..|s| - 1] == NatToString(n / 10);
      NatToStringValue(n / 10);
    }
  }

  lemma {:induction false} ZerosValue(z: string)
    requires forall i :: 0 <= i < |z| ==> z[i] == '0'
    ensures AllDigits(z) && DigitsValue(z) == 0
  {
    if z != [] {
      ZerosValue(z[..|z| - 1]);
    }
  }

  lemma {:induction false} LeadingZerosValue(z: string, s: string)
    requires forall i :: 0 <= i < |z| ==> z[i] == '0'
    requires AllDigits(s)
    ensures AllDigits(z + s) && DigitsValue(z + s) == DigitsValue(s)
  {
    if s == [] {
      assert z + s == z;
      ZerosValue(z);
    } else {
      var t := s[..|s| - 1];
      assert (z + s)[..|z + s| - 1] == z + t;
      LeadingZerosValue(z, t);
    }
  }

  lemma PadStartDigits(s: string, width: nat)
    requires AllDigits(s)
    ensures AllDigits(PadStart(s, width, '0'))
    ensures DigitsValue(PadStart(s, width, '0')) == DigitsValue(s)
  {
    if |s| < width {
      LeadingZerosValue(Repeat('0', width - |s|), s);
    }
  }

  lemma {:induction false} ToLowerAppend(a: string, b: string)
    ensures ToLower(a + b) == ToLower(a) + ToLower(b)
  {
  }

  lemma ToLowerIdempotent(s: string)
    ensures ToLower(ToLower(s)) == ToLower(s)
  {
  }

  lemma ContainsEmpty(s: string)
    ensures Contains(s, "")
  {
    assert OccursAt(s, "", 0);
  }

  // ---------------------------------------------------------------------------
  // Splitting text that was joined.

  /** Every line followed by a newline: what a writer appending `"...\n"` per line produces. */
  function Terminated(lines: seq<string>): string
  {
    if lines == [] then "" else lines[0] + "\n" + Terminated(lines[1..])
  }

  /** Text without the separator is a single field. */
  lemma {:induction false} SplitPlain(a: string, c: char)
    requires c !in a
    ensures Split(a, c) == [a]
  {
    if a != [] {
      SplitPlain(a[1..], c);
      assert [a[0]] + a[1..] == a;
    }
  }

  /** A separator after a field that holds none ends that field. */
  lemma {:induction false} SplitAround(a: string, b: string, c: char)
    requires c !in a
    ensures Split(a + [c] + b, c) == [a] + Split(b, c)
  {
    if a == [] {
      assert a + [c] + b == [c] + b;
      assert ([c] + b)[1..] == b;
    } else {
      var s := a + [c] + b;
      assert s[1..] == a[1..] + [c] + b;
      SplitAround(a[1..], b, c);
      assert [a[0]] + a[1..] == a;
    }
  }

  /** Splitting newline-terminated lines gives the lines back, then one empty field. */
  lemma {:induction false} SplitTerminated(lines: seq<string>)
    requires forall i :: 0 <= i < |lines| ==> '\n' !in lines[i]
    ensures Split(Terminated(lines), '\n') == lines + [""]
  {
    if lines != [] {
      SplitTerminated(lines[1..]);
      assert lines[0] + "\n" + Terminated(lines[1..]) == lines[0] + ['\n'] + Terminated(lines[1..]);
      SplitAround(lines[0], Terminated(lines[1..]), '\n');
      assert [lines[0]] + lines[1..] == lines;
    }
  }

  lemma {:induction false} TerminatedAppend(a: seq<string>, b: seq<string>)
    ensures Terminated(a + b) == Terminated(a) + Terminated(b)
  {
    if a == [] {
      assert a + b == b;
    } else {
      assert (a + b)[1..] == a[1..] + b;
      TerminatedAppend(a[1..], b);
    }
  }

  /** `Terminated` peels off the line at `k`. */
  lemma TerminatedFrom(lines: seq<string>, k: nat)
    requires k < |lines|
    ensures Terminated(lines[k..]) == lines[k] + "\n" + Terminated(lines[k + 1..])
  {
    assert lines[k..][1..] == lines[k + 1..];
  }

  // ---------------------------------------------------------------------------
  // `trim`, `parseInt` and `parseFloat`.

  /** The characters `trim`, `parseInt` and `parseFloat` skip as white space. */
  predicate IsSpace(c: char)
  {
    c == ' ' || c == '\t' || c == '\n' || c == '\r' || c == '\U{B}' || c == '\U{C}' || c == '\U{A0}'
    || c == '\U{1680}' || ('\U{2000}' <= c <= '\U{200A}') || c == '\U{2028}' || c == '\U{2029}' || c == '\U{202F}'
    || c == '\U{205F}' || c == '\U{3000}' || c == '\U{FEFF}'
  }

  /** `!s.trim()`: nothing but white space. */
  predicate Blank(s: string)
  {
    forall i :: 0 <= i < |s| ==> IsSpace(s[i])
  }

  /** `s` without its leading white space. */
  function TrimStart(s: string): (r: string)
    ensures |r| <= |s| && r == s[|s| - |r|..]
    ensures Blank(s[..|s| - |r|]) && (r != [] ==> !IsSpace(r[0]))
  {
    if s != [] && IsSpace(s[0]) then
      var r := TrimStart(s[1..]);
      assert s[1..][..|s| - 1 - |r|] == s[1..|s| - |r|];
      r
    else s
  }

  /** The longest run of digits `s` starts with. */
  function DigitPrefix(s: string): (r: string)
    ensures |r| <= |s| && r == s[..|r|] && AllDigits(r)
    ensures |r| < |s| ==> !IsDigit(s[|r|])
  {
    if s != [] && IsDigit(s[0]) then [s[0]] + DigitPrefix(s[1..]) else []
  }

  lemma DigitPrefixOf(d: string, rest: string)
    requires AllDigits(d) && (rest != [] ==> !IsDigit(rest[0]))
    ensures DigitPrefix(d + rest) == d
  {
    assert (d + rest)[..|d|] == d;
  }

  /** Text that starts with a digit or a sign has no leading white space. */
  lemma NoLeadingSpace(s: string)
    requires s != [] && (IsDigit(s[0]) || s[0] == '-')
    ensures TrimStart(s) == s
  {
  }

  /** The sign `parseInt` and `parseFloat` read: whether it is '-', and what follows it. */
  function Unsigned(t: string): (bool, string)
  {
    if t != [] && (t[0] == '-' || t[0] == '+') then (t[0] == '-', t[1..]) else (false, t)
  }

  /** `parseInt(s)` (base 10): white space, a sign, then as many digits as there are; `None` is NaN. */
  function ParseInt(s: string): Option<int>
  {
    var (negative, body) := Unsigned(TrimStart(s));
    var d := DigitPrefix(body);
    if d == [] then None else Some(if negative then -(DigitsValue(d) as int) else DigitsValue(d))
  }

  /** `String(n)` reads back through `parseInt`. */
  lemma ParseIntOfString(n: int)
    ensures ParseInt(IntToString(n)) == Some(n)
  {
    var m: nat := if n < 0 then -n else n;
    var digits := NatToString(m);
    var s := IntToString(n);
    NoLeadingSpace(s);
    assert Unsigned(s).1 == digits by {
      if n < 0 {
        assert s == "-" + digits;
      }
    }
    DigitPrefixOf(digits, []);
    assert digits + [] == digits;
    NatToStringValue(m);
  }

  function Pow10(n: nat): (p: nat)
    ensures p >= 1
  {
    if n == 0 then 1 else 10 * Pow10(n - 1)
  }

  /** The value of the digits after a decimal point. */
  function Fraction(d: string): real
    requires AllDigits(d)
  {
    DigitsValue(d) as real / Pow10(|d|) as real
  }

  /**
   * `parseFloat(s)`: white space, a sign, digits, then optionally '.' and
   * more digits, with at least one digit in all; `None` is NaN.
   */
  function ParseFloat(s: string): Option<real>
  {
    var (negative, body) := Unsigned(TrimStart(s));
    var v := UnsignedFloat(body);
    if v.None? then None else Some(if negative then -v.value else v.value)
  }

  /** The number the text after the sign starts with: digits, then optionally '.' and more digits. */
  function UnsignedFloat(body: string): Option<real>
  {
    var whole := DigitPrefix(body);
    var after := body[|whole|..];
    var frac := if after != [] && after[0] == '.' then DigitPrefix(after[1..]) else [];
    if whole == [] && frac == [] then None else Some(DigitsValue(whole) as real + Fraction(frac))
  }

  /** A whole number's text reads back through `parseFloat`. */
  lemma ParseFloatOfNat(n: nat)
    ensures ParseFloat(NatToString(n)) == Some(n as real)
  {
    var digits := NatToString(n);
    NoLeadingSpace(digits);
    DigitPrefixOf(digits, []);
    assert digits + [] == digits;
    assert Unsigned(digits) == (false, digits);
    assert digits[|digits|..] == [];
    assert Fraction([]) == 0.0;
    NatToStringValue(n);
  }

  /** The digits before and after the point of `<whole>.<d>`. */
  lemma DecimalParts(whole: string, d: string)
    requires whole != [] && AllDigits(whole) && AllDigits(d)
    ensures var s := whole + "." + d;
            TrimStart(s) == s && Unsigned(s) == (false, s) && DigitPrefix(s) == whole
            && s[|whole|..] == "." + d && DigitPrefix(s[|whole|..][1..]) == d
  {
    var s := whole + "." + d;
    NoLeadingSpace(s);
    assert s == whole + ("." + d);
    DigitPrefixOf(whole, "." + d);
    assert ("." + d)[1..] == d;
    DigitPrefixOf(d, []);
    assert d + [] == d;
  }

  /** Decimal text such as '1200.00' reads back through `parseFloat`. */
  lemma ParseFloatOfDecimal(n: nat, d: string)
    requires AllDigits(d)
    ensures ParseFloat(NatToString(n) + "." + d) == Some(n as real + Fraction(d))
  {
    DecimalParts(NatToString(n), d);
    NatToStringValue(n);
  }

  /** `x` is a whole number of cents: at most two digits after the point. */
  predicate WholeCents(x: real)
  {
    (x * 100.0).Floor as real == x * 100.0
  }

  /** Two digits for a number of cents below 100: '05' for 5. */
  function TwoDigits(c: nat): (r: string)
    requires c < 100
    ensures |r| == 2 && AllDigits(r) && Fraction(r) == c as real / 100.0
  {
    var r := [DigitChar(c / 10), DigitChar(c % 10)];
    assert r[..1][..0] == [];
    assert DigitsValue(r[..1]) == c / 10;
    assert Pow10(2) == 100;
    r
  }

  /**
   * A money value as the driver sends a two-place decimal column: an
   * optional '-', the whole part, '.' and two digits, such as '1200.00' or
   * '-5.50'; digits past the cents are not written.
   */
  function CentsText(x: real): (s: string)
    ensures s != []
  {
    SignText(x < 0.0) + CentsDigits(if x < 0.0 then -x else x)
  }

  /** The '-' written before a negative value, and nothing before any other. */
  function SignText(negative: bool): string
  {
    if negative then "-" else ""
  }

  /** The whole part of a non-negative value, '.', and its first two decimals. */
  function CentsDigits(m: real): (s: string)
    requires m >= 0.0
    ensures s != [] && IsDigit(s[0])
  {
    var cents := (m * 100.0).Floor;
    NatToString(cents / 100) + "." + TwoDigits(cents % 100)
  }

  /** The sign `parseFloat` reads from '-' followed by a digit, and from a digit alone. */
  lemma SignOf(t: string)
    requires t != [] && IsDigit(t[0])
    ensures Unsigned(TrimStart("-" + t)) == (true, t)
    ensures Unsigned(TrimStart(t)) == (false, t)
  {
    NoLeadingSpace("-" + t);
    assert ("-" + t)[1..] == t;
    NoLeadingSpace(t);
  }

  /** A sign before text that starts with a digit: '-' negates what `parseFloat` reads, no sign keeps it. */
  lemma ParseFloatSigned(negative: bool, t: string, m: real)
    requires t != [] && IsDigit(t[0]) && ParseFloat(t) == Some(m)
    ensures ParseFloat(SignText(negative) + t) == Some(if negative then -m else m)
  {
    SignOf(t);
    if !negative {
      assert SignText(negative) + t == t;
    }
  }

  /** A non-negative value in whole cents is its whole part plus its cents over 100. */
  lemma CentsSplit(m: real)
    requires m >= 0.0 && WholeCents(m)
    ensures var cents := (m * 100.0).Floor;
            cents >= 0 && m == (cents / 100) as real + (cents % 100) as real / 100.0
  {
    var cents := (m * 100.0).Floor;
    assert cents == 100 * (cents / 100) + cents % 100;
    assert cents as real == 100.0 * (cents / 100) as real + (cents % 100) as real;
  }

  /** The digits of a non-negative value in whole cents read back through `parseFloat`. */
  lemma ParseFloatOfCentsDigits(m: real)
    requires m >= 0.0 && WholeCents(m)
    ensures ParseFloat(CentsDigits(m)) == Some(m)
  {
    CentsSplit(m);
    ParseFloatOfCentCount((m * 100.0).Floor);
  }

  /** A count of cents written as its whole part, '.' and two digits reads back as that many hundredths. */
  lemma ParseFloatOfCentCount(cents: nat)
    ensures ParseFloat(NatToString(cents / 100) + "." + TwoDigits(cents % 100))
            == Some((cents / 100) as real + (cents % 100) as real / 100.0)
  {
    ParseFloatOfDecimal(cents / 100, TwoDigits(cents % 100));
  }

  /** The negation of a value in whole cents is in whole cents. */
  lemma WholeCentsNegated(x: real)
    requires WholeCents(x)
    ensures WholeCents(-x)
  {
    var k := (x * 100.0).Floor;
    assert -x * 100.0 == (-k) as real;
  }

  /** The sum of two values in whole cents is in whole cents. */
  lemma WholeCentsAdded(x: real, y: real)
    requires WholeCents(x) && WholeCents(y)
    ensures WholeCents(x + y)
  {
    var a, b := (x * 100.0).Floor, (y * 100.0).Floor;
    assert (x + y) * 100.0 == (a + b) as real;
  }

  /** A value in whole cents reads back from its text through `parseFloat`. */
  lemma ParseFloatOfCents(x: real)
    requires WholeCents(x)
    ensures ParseFloat(CentsText(x)) == Some(x)
  {
    var m := if x < 0.0 then -x else x;
    if x < 0.0 {
      WholeCentsNegated(x);
    }
    ParseFloatOfCentsDigits(m);
    ParseFloatSigned(x < 0.0, CentsDigits(m), m);
  }

  /**
   * `a <= b` in code-point order, which is how a text column sorts under
   * PostgreSQL's "C" collation: the first differing character decides, and
   * a prefix comes before every longer string.
   */
  predicate AtMost(a: string, b: string)
  {
    a == [] || (b != [] && (a[0] < b[0] || (a[0] == b[0] && AtMost(a[1..], b[1..]))))
  }

  /** Any two strings are ordered one way or the other. */
  lemma {:induction false} AtMostTotal(a: string, b: string)
    ensures AtMost(a, b) || AtMost(b, a)
    decreases |a|
  {
    if a != [] && b != [] && a[0] == b[0] {
      AtMostTotal(a[1..], b[1..]);
    }
  }

  lemma {:induction false} AtMostTransitive(a: string, b: string, c: string)
    requires AtMost(a, b) && AtMost(b, c)
    ensures AtMost(a, c)
    decreases |a|
  {
    if a != [] && a[0] == b[0] && b[0] == c[0] {
      AtMostTransitive(a[1..], b[1..], c[1..]);
    }
  }

  /** The order is antisymmetric: strings that sort both ways are equal. */
  lemma {:induction false} AtMostAntisymmetric(a: string, b: string)
    requires AtMost(a, b) && AtMost(b, a)
    ensures a == b
    decreases |a|
  {
    if a != [] {
      AtMostAntisymmetric(a[1..], b[1..]);
      assert a == [a[0]] + a[1..] && b == [b[0]] + b[1..];
    }
  }
}
