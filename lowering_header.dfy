/**
 * Knitout to formal knitout (`k2f.mjs`): the whole file. The magic line and the comment headers
 * are checked, the `Carriers` names are given yarn numbers, and then every remaining line is
 * translated by the per-line pass.
 *
 * `Lower` is the reference definition; `Run` performs the same steps with loops over the lines
 * and the `Lowering` object, and is proved to agree with it.
 */
module LoweringMain {
  import opened Results
  import opened Text
  import opened LoweringState
  import opened LoweringSpec
  import opened LoweringPass

  /**
   * How a translation ends: the text of the output file; a fatal `error()` reported at a 1-based
   * line number; or an exception the source does not catch.
   */
  datatype Lowered = Written(text: string) | Fatal(line: nat, message: string) | Thrown(message: string)

  // ---------------------------------------------------------------- magic line and headers

  /** `^;!knitout-(\d+)$` */
  predicate IsMagic(line: string) {
    StartsWith(line, ";!knitout-") && IsDecimal(line[10..])
  }

  /**
   * A comment header `;;<header>: <value>`: the name runs from the third character to the first
   * `": "`, the value is everything after it. A line that does not start with `;;` or has no
   * `": "` ends the header block.
   */
  function HeaderField(line: string): Option<(string, string)> {
    if !StartsWith(line, ";;") then None
    else
      var k := FindColonSpace(line, 0);
      if k == |line| then None
      else
        assert 2 <= k by {
          assert line[0] == ';' && line[1] == ';';
        }
        Some((line[2..k], line[k + 2..]))
  }

  /** A header line is exactly `;;`, its name, `": "` and its value. */
  lemma HeaderFieldParts(line: string)
    ensures HeaderField(line).Some? ==>
      StartsWith(line, ";;") && ";;" + HeaderField(line).value.0 + ": " + HeaderField(line).value.1 == line
  {
    if HeaderField(line).Some? {
      var k := FindColonSpace(line, 0);
      assert line == line[..2] + line[2..k] + line[k..k + 2] + line[k + 2..];
    }
  }

  /** `^\d+\.?\d*$` with a value greater than zero: some digit is not zero. */
  predicate IsGauge(value: string) {
    var dot := FindChar(value, '.');
    var fraction := if dot < |value| then value[dot + 1..] else "";
    IsDecimal(value[..dot]) && IsDigits(fraction) && !(AllZeros(value[..dot]) && AllZeros(fraction))
  }

  function GaugeMessage(value: string): string {
    "ERROR: Guage header's value ('" + value + "') should be a number greater than zero."
  }

  /** Where the header block ends and the last `Carriers` value seen, split at runs of spaces. */
  datatype Headers = Headers(next: nat, carriers: Option<seq<string>>)

  /**
   * The header loop from line `i` on, having seen `names` so far. A later `Carriers` header
   * replaces an earlier one; a bad `Gauge` is thrown; every other header is ignored.
   */
  function ScanHeaders(lines: seq<string>, i: nat, names: Option<seq<string>>): (r: Result<Headers>)
    requires i <= |lines|
    ensures r.Success? ==> i <= r.value.next <= |lines|
    decreases |lines| - i
  {
    if i == |lines| then Success(Headers(i, names))
    else match HeaderField(lines[i])
      case None => Success(Headers(i, names))
      case Some((header, value)) =>
        if header == "Carriers" then ScanHeaders(lines, i + 1, Some(Fields(value, IsSpace)))
        else if header == "Gauge" && !IsGauge(value) then Failure(GaugeMessage(value))
        else ScanHeaders(lines, i + 1, names)
  }

  /** Whether `line` is a header line named `name`. */
  predicate IsHeader(line: string, name: string) {
    HeaderField(line).Some? && HeaderField(line).value.0 == name
  }

  /** The header block is a run of header lines, and the line after it, if any, is not one. */
  lemma {:induction false} HeaderBlock(lines: seq<string>, i: nat, names: Option<seq<string>>)
    requires i <= |lines|
    ensures var r := ScanHeaders(lines, i, names);
      r.Success? ==>
        && (forall j :: i <= j < r.value.next ==> HeaderField(lines[j]).Some?)
        && (r.value.next < |lines| ==> HeaderField(lines[r.value.next]).None?)
    decreases |lines| - i
  {
    if i < |lines| && HeaderField(lines[i]).Some? {
      var (header, value) := HeaderField(lines[i]).value;
      if header == "Carriers" {
        HeaderBlock(lines, i + 1, Some(Fields(value, IsSpace)));
      } else if !(header == "Gauge" && !IsGauge(value)) {
        HeaderBlock(lines, i + 1, names);
      }
    }
  }

  // ---------------------------------------------------------------- carrier numbers

  /** The value a name must exceed: zero for the first, else the previous name's value. */
  function Previous(names: seq<string>, i: nat): (v: nat)
    requires i < |names|
    ensures i > 0 && IsDecimal(names[i - 1]) ==> v == DecimalValue(names[i - 1])
  {
    if i > 0 && IsDecimal(names[i - 1]) then DecimalValue(names[i - 1]) else 0
  }

  /** The name at position i is a decimal numeral above the value it must exceed. */
  predicate Follows(names: seq<string>, i: nat)
    requires i < |names|
  {
    IsDecimal(names[i]) && DecimalValue(names[i]) > Previous(names, i)
  }

  /** Every name is a decimal numeral and their values strictly increase from above zero. */
  predicate Ordered(names: seq<string>) {
    && (forall x :: x in names ==> IsDecimal(x))
    && (forall i :: 0 <= i < |names| ==> Follows(names, i))
  }

  /** The carrier table of ordered names: each name stands for the yarn its value numbers, not yet in. */
  function Table(names: seq<string>): (t: map<string, Carrier>)
    requires Ordered(names)
  {
    map x | x in names :: Carrier(DecimalValue(x), Absent)
  }

  /** What the source throws when the names are not ordered: the remapping loop names an undefined variable. */
  const RemapCrash: string := "ReferenceError: name is not defined"

  // ---------------------------------------------------------------- the body

  /** How the per-line loop ends: after the last line, or at the 0-based index of the line with a fatal error. */
  datatype Ended = Finished(st: LState) | StoppedAt(index: nat, message: string)

  /** The per-line loop from line `i` on. */
  function Translate(st: LState, lines: seq<string>, i: nat): (r: Ended)
    requires i <= |lines|
    ensures r.StoppedAt? ==> i <= r.index < |lines|
    decreases |lines| - i
  {
    if i == |lines| then Finished(st)
    else match LineStep(st, lines[i])
      case Failure(m) => StoppedAt(i, m)
      case Success(next) => Translate(next, lines, i + 1)
  }

  /** The whole translation of the lines of a knitout file. */
  function Lower(lines: seq<string>): Lowered {
    if |lines| == 0 then Fatal(1, "No first line to check for magic number.")
    else if !IsMagic(lines[0]) then Fatal(1, "invalid knitout magic string")
    else match ScanHeaders(lines, 1, None)
      case Failure(m) => Thrown(m)
      case Success(h) =>
        if h.carriers.None? then Fatal(h.next + 1, "Carriers header not included but is required.")
        else if !Ordered(h.carriers.value) then Thrown(RemapCrash)
        else match Translate(LState(Table(h.carriers.value), map[], 0, []), lines, h.next)
          case StoppedAt(i, m) => Fatal(i + 1, m)
          case Finished(st) => Written(OutputText(st.output))
  }

  // ---------------------------------------------------------------- the imperative pass

  /** The header loop: read `;;name: value` lines until the first line that is not one. */
  method ReadHeaders(lines: seq<string>) returns (r: Result<Headers>)
    requires |lines| >= 1
    ensures r == ScanHeaders(lines, 1, None)
  {
    var names: Option<seq<string>> := None;
    var i := 1;
    while i < |lines|
      invariant 1 <= i <= |lines|
      invariant ScanHeaders(lines, 1, None) == ScanHeaders(lines, i, names)
      decreases |lines| - i
    {
      match HeaderField(lines[i]) {
        case None =>
          break;
        case Some((header, value)) =>
          if header == "Carriers" {
            names := Some(Fields(value, IsSpace));
          } else if header == "Gauge" && !IsGauge(value) {
            return Failure(GaugeMessage(value));
          }
      }
      i := i + 1;
    }
    r := Success(Headers(i, names));
  }

  /** Give every carrier name its yarn number: its own value, when the names are in order. */
  method AssignYarns(names: seq<string>) returns (r: Option<map<string, Carrier>>)
    ensures r.Some? <==> Ordered(names)
    ensures r.Some? ==> r.value == Table(names)
  {
    var table: map<string, Carrier> := map[];
    var previous: nat := 0;
    var i := 0;
    while i < |names|
      invariant 0 <= i <= |names|
      invariant Ordered(names[..i])
      invariant i < |names| ==> previous == Previous(names, i)
      invariant table == Table(names[..i])
    {
      var name := names[i];
      if !IsDecimal(name) || DecimalValue(name) <= previous {
        assert !Follows(names, i);
        return None;
      }
      OrderedNext(names, i);
      table := table[name := Carrier(DecimalValue(name), Absent)];
      previous := DecimalValue(name);
      i := i + 1;
    }
    assert names[..i] == names;
    r := Some(table);
  }

  /** An ordered prefix extended by a name that follows it is ordered, and its table gains that name. */
  lemma OrderedNext(names: seq<string>, i: nat)
    requires i < |names| && Ordered(names[..i]) && Follows(names, i)
    ensures Ordered(names[..i + 1])
    ensures Table(names[..i + 1]) == Table(names[..i])[names[i] := Carrier(DecimalValue(names[i]), Absent)]
  {
    var longer := names[..i + 1];
    assert longer == names[..i] + [names[i]];
    forall k | 0 <= k < |longer|
      ensures Follows(longer, k)
    {
      if k < i {
        assert Follows(names[..i], k);
        assert longer[k] == names[..i][k];
        if k > 0 {
          assert longer[k - 1] == names[..i][k - 1];
        }
      }
    }
    assert forall x :: x in longer <==> x in names[..i] || x == names[i];
  }

  /** The per-line loop over the lines after the headers. */
  method TranslateLines(pass: Lowering, lines: seq<string>, from: nat) returns (r: Ended)
    requires from <= |lines|
    modifies pass
    ensures r.Finished? ==> r.st == pass.State()
    ensures r == Translate(old(pass.State()), lines, from)
  {
    var i := from;
    while i < |lines|
      invariant from <= i <= |lines|
      invariant Translate(old(pass.State()), lines, from) == Translate(pass.State(), lines, i)
      decreases |lines| - i
    {
      var outcome := pass.ProcessLine(lines[i]);
      if outcome.Fail? {
        return StoppedAt(i, outcome.error);
      }
      i := i + 1;
    }
    r := Finished(pass.State());
  }

  /** The script: check the magic line and headers, number the carriers, translate every line. */
  method Run(lines: seq<string>) returns (r: Lowered)
    ensures r == Lower(lines)
  {
    if |lines| == 0 {
      return Fatal(1, "No first line to check for magic number.");
    }
    if !IsMagic(lines[0]) {
      return Fatal(1, "invalid knitout magic string");
    }
    var headers := ReadHeaders(lines);
    if headers.Failure? {
      return Thrown(headers.error);
    }
    var h := headers.value;
    if h.carriers.None? {
      return Fatal(h.next + 1, "Carriers header not included but is required.");
    }
    var table := AssignYarns(h.carriers.value);
    if table.None? {
      return Thrown(RemapCrash);
    }
    var pass := new Lowering(table.value);
    var ended := TranslateLines(pass, lines, h.next);
    match ended {
      case StoppedAt(i, m) => r := Fatal(i + 1, m);
      case Finished(st) => r := Written(OutputText(st.output));
    }
  }
}
