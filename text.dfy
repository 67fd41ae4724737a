/**
 * String handling shared by both passes: the line splitting the JavaScript source does with
 * `String.split` and a regular expression, the digit strings its regular expressions accept, and
 * the decimal rendering of integers used when instructions are written out.
 */
module Text {

  // ---------------------------------------------------------------- characters

  /** The characters matched by JavaScript's `\s` class. */
  predicate IsJsSpace(c: char) {
    var k := c as int;
    k == 0x20 || 0x09 <= k <= 0x0D || k == 0xA0 || k == 0x1680 || 0x2000 <= k <= 0x200A
    || k == 0x2028 || k == 0x2029 || k == 0x202F || k == 0x205F || k == 0x3000 || k == 0xFEFF
  }

  /** The class `[ ]`: the plain space only. */
  predicate IsSpace(c: char) {
    c == ' '
  }

  predicate IsDigit(c: char) {
    '0' <= c <= '9'
  }

  /** `\d*` */
  predicate IsDigits(s: string) {
    forall i :: 0 <= i < |s| ==> IsDigit(s[i])
  }

  /** `\d+` */
  predicate IsDecimal(s: string) {
    |s| > 0 && IsDigits(s)
  }

  /** `[0-9]|[1-9]\d+`: a decimal numeral without leading zeros. */
  predicate IsCanonical(s: string) {
    IsDecimal(s) && (|s| == 1 || s[0] != '0')
  }

  // ---------------------------------------------------------------- splitting

  /** The first index at or after `i` holding a separator, or `|s|` when there is none. */
  function NextSep(s: string, sep: char -> bool, i: nat): (k: nat)
    requires i <= |s|
    ensures i <= k <= |s|
    ensures k < |s| ==> sep(s[k])
    ensures forall j :: i <= j < k ==> !sep(s[j])
    decreases |s| - i
  {
    if i == |s| || sep(s[i]) then i else NextSep(s, sep, i + 1)
  }

  /** The first index at or after `i` holding a non-separator, or `|s|` when there is none. */
  function NextNonSep(s: string, sep: char -> bool, i: nat): (k: nat)
    requires i <= |s|
    ensures i <= k <= |s|
    ensures k < |s| ==> !sep(s[k])
    ensures forall j :: i <= j < k ==> sep(s[j])
    decreases |s| - i
  {
    if i == |s| || !sep(s[i]) then i else NextNonSep(s, sep, i + 1)
  }

  /**
   * `s.split(/sep+/)`: the pieces between maximal runs of separators. A leading or trailing run
   * yields an empty first or last piece, and the empty string yields one empty piece.
   */
  function Fields(s: string, sep: char -> bool): (r: seq<string>)
    ensures |r| >= 1
    decreases |s|
  {
    var k := NextSep(s, sep, 0);
    if k == |s| then [s]
    else [s[..k]] + Fields(s[NextNonSep(s, sep, k)..], sep)
  }

  /** The split pieces with a possibly empty first and last piece dropped, as both passes do. */
  function Tokens(s: string, sep: char -> bool): seq<string> {
    var f := Fields(s, sep);
    var a := if |f| > 0 && f[0] == "" then f[1..] else f;
    if |a| > 0 && a[|a| - 1] == "" then a[..|a| - 1] else a
  }

  /** One line ending: a trailing carriage return before the newline belongs to the separator. */
  function Chomp(s: string): (r: string)
    ensures |r| <= |s| && r == s[..|r|]
  {
    if |s| > 0 && s[|s| - 1] == '\r' then s[..|s| - 1] else s
  }

  /** `text.split(/\r?\n/)`: the lines of a file; the text after the last newline is a last (possibly empty) line. */
  function SplitLines(text: string): (lines: seq<string>)
    ensures |lines| >= 1
    decreases |text|
  {
    var k := FindChar(text, '\n');
    if k == |text| then [text] else [Chomp(text[..k])] + SplitLines(text[k + 1..])
  }

  /** No line of a split text holds a newline. */
  lemma {:induction false} SplitLinesHaveNoNewlines(text: string)
    ensures forall i, j :: 0 <= i < |SplitLines(text)| && 0 <= j < |SplitLines(text)[i]| ==> SplitLines(text)[i][j] != '\n'
    decreases |text|
  {
    var k := FindChar(text, '\n');
    if k < |text| {
      SplitLinesHaveNoNewlines(text[k + 1..]);
      var lines := SplitLines(text);
      assert lines == [Chomp(text[..k])] + SplitLines(text[k + 1..]);
      forall i, j | 0 <= i < |lines| && 0 <= j < |lines[i]|
        ensures lines[i][j] != '\n'
      {
        if i == 0 {
          assert lines[0][j] == text[j];
        } else {
          assert lines[i] == SplitLines(text[k + 1..])[i - 1];
        }
      }
    }
  }

  /** Every piece of a split is free of separators. */
  lemma {:induction false} FieldsHaveNoSeparators(s: string, sep: char -> bool)
    ensures forall k, j :: 0 <= k < |Fields(s, sep)| && 0 <= j < |Fields(s, sep)[k]| ==> !sep(Fields(s, sep)[k][j])
    decreases |s|
  {
    var k := NextSep(s, sep, 0);
    if k < |s| {
      FieldsHaveNoSeparators(s[NextNonSep(s, sep, k)..], sep);
    }
  }

  /** A line yields no token exactly when it consists of separators only. */
  lemma {:induction false} TokensEmptyIffBlank(s: string, sep: char -> bool)
    ensures Tokens(s, sep) == [] <==> forall j :: 0 <= j < |s| ==> sep(s[j])
  {
    var k := NextSep(s, sep, 0);
    var f := Fields(s, sep);
    if k == |s| {
      assert f == [s];
      if |s| > 0 {
        assert !sep(s[0]);
        assert Tokens(s, sep) == [s];
      }
    } else {
      var m := NextNonSep(s, sep, k);
      var rest := s[m..];
      assert f == [s[..k]] + Fields(rest, sep);
      if k > 0 {
        assert !sep(s[0]);
        assert f[0] != "" && Tokens(s, sep)[0] == s[..k];
      } else if m == |s| {
        assert rest == "";
        assert f == ["", ""];
        assert Tokens(s, sep) == [];
      } else {
        assert !sep(s[m]);
        var g := Fields(rest, sep);
        assert g[0] == rest[..NextSep(rest, sep, 0)];
        assert NextSep(rest, sep, 0) > 0;
        assert g[0] != "";
        assert f[1..] == g;
        assert Tokens(s, sep) != [] by {
          var a := f[1..];
          if |a| > 0 && a[|a| - 1] == "" {
            assert |a| > 1;
            assert a[..|a| - 1][0] == g[0];
          } else {
            assert a[0] == g[0];
          }
        }
      }
    }
  }

  /** The index of the first occurrence of `c` in `s`, or `|s|` when `c` does not occur. */
  function FindChar(s: string, c: char): (k: nat)
    ensures k <= |s|
    ensures k < |s| ==> s[k] == c
    ensures forall j :: 0 <= j < k ==> s[j] != c
  {
    if s == [] then 0
    else if s[0] == c then 0
    else 1 + FindChar(s[1..], c)
  }

  /** The index of the first occurrence of ": " in `s`, or `|s|` when it does not occur. */
  function FindColonSpace(s: string, i: nat): (k: nat)
    requires i <= |s|
    ensures i <= k <= |s|
    ensures k < |s| ==> k + 1 < |s| && s[k] == ':' && s[k + 1] == ' '
    ensures forall j :: i <= j < k && j + 1 < |s| ==> !(s[j] == ':' && s[j + 1] == ' ')
    decreases |s| - i
  {
    if i + 1 >= |s| then |s|
    else if s[i] == ':' && s[i + 1] == ' ' then i
    else FindColonSpace(s, i + 1)
  }

  predicate StartsWith(s: string, prefix: string) {
    |prefix| <= |s| && s[..|prefix|] == prefix
  }

  /** `s` followed by spaces up to `width` characters, as the `while (op.length < 30)` loop pads. */
  function PadTo(s: string, width: nat): (r: string)
    ensures |r| == if |s| < width then width else |s|
    ensures r[..|s|] == s
    ensures forall j :: |s| <= j < |r| ==> r[j] == ' '
    decreases width - |s|
  {
    if |s| < width then PadTo(s + " ", width) else s
  }

  /** `parts.join(sep)` */
  function Join(parts: seq<string>, sep: string): string {
    if parts == [] then ""
    else if |parts| == 1 then parts[0]
    else parts[0] + sep + Join(parts[1..], sep)
  }

  // ---------------------------------------------------------------- numerals

  function DigitValue(c: char): nat
    requires IsDigit(c)
  {
    c as int - '0' as int
  }

  /** `parseInt` of a string of decimal digits. */
  function DecimalValue(s: string): nat
    requires IsDigits(s)
    decreases |s|
  {
    if s == [] then 0 else 10 * DecimalValue(s[..|s| - 1]) + DigitValue(s[|s| - 1])
  }

  function Digit(d: nat): (c: char)
    requires d < 10
    ensures IsDigit(c) && DigitValue(c) == d
  {
    ('0' as int + d) as char
  }

  /** The decimal rendering of a natural number, as a template literal prints it. */
  function NatToString(n: nat): (s: string)
    ensures IsCanonical(s) && DecimalValue(s) == n
    decreases n
  {
    if n < 10 then [Digit(n)]
    else
      var p := NatToString(n / 10);
      var s := p + [Digit(n % 10)];
      assert s[..|s| - 1] == p;
      s
  }

  /** The decimal rendering of an integer, with a leading `-` when it is negative. */
  function IntToString(i: int): (s: string)
    ensures i < 0 ==> |s| > 1 && s[0] == '-' && IsCanonical(s[1..]) && DecimalValue(s[1..]) == -i
    ensures i >= 0 ==> IsCanonical(s) && DecimalValue(s) == i
  {
    if i < 0 then "-" + NatToString(-i) else NatToString(i)
  }

  /** A numeral whose first digit is not zero denotes a positive number. */
  lemma {:induction false} LeadingDigitPositive(s: string)
    requires IsDecimal(s) && s[0] != '0'
    ensures DecimalValue(s) >= 1
    decreases |s|
  {
    if |s| > 1 {
      var p := s[..|s| - 1];
      assert p[0] == s[0];
      LeadingDigitPositive(p);
    }
  }

  /** Printing the value of a numeral without leading zeros gives the numeral back. */
  lemma {:induction false} CanonicalRoundTrip(s: string)
    requires IsCanonical(s)
    ensures NatToString(DecimalValue(s)) == s
    decreases |s|
  {
    var v := DecimalValue(s);
    if |s| == 1 {
      assert s[..0] == "" && DecimalValue(s[..0]) == 0;
      assert v == DigitValue(s[0]);
    } else {
      var p := s[..|s| - 1];
      var d := DigitValue(s[|s| - 1]);
      assert p[0] == s[0];
      LeadingDigitPositive(p);
      CanonicalRoundTrip(p);
      assert v == 10 * DecimalValue(p) + d;
      assert v / 10 == DecimalValue(p) && v % 10 == d;
      assert Digit(d) == s[|s| - 1];
      assert s == p + [s[|s| - 1]];
    }
  }

  /** `-?\d+` */
  predicate IsSignedDecimal(s: string) {
    if |s| > 0 && s[0] == '-' then IsDecimal(s[1..]) else IsDecimal(s)
  }

  /** `parseInt` of a `-?\d+` numeral. */
  function SignedValue(s: string): int
    requires IsSignedDecimal(s)
  {
    if |s| > 0 && s[0] == '-' then var magnitude: int := DecimalValue(s[1..]); -magnitude
    else DecimalValue(s)
  }

  /** Reading back a printed integer gives the integer. */
  lemma IntRoundTrip(i: int)
    ensures IsSignedDecimal(IntToString(i)) && SignedValue(IntToString(i)) == i
  {
    var s := IntToString(i);
    if i >= 0 {
      assert s[0] != '-';
    }
  }
}
