/**
 * Formal knitout: the instruction model and the line parser of `fnitout.mjs`.
 *
 * A line is cut at its first `;` (the rest is the instruction's comment), split into
 * whitespace-separated tokens, and its fields are consumed token by token according to the
 * operation named by the first token. A line yields one instruction, one error carrying its
 * line number, or nothing when no token is left.
 */
module FormalSyntax {
  import opened Results
  import opened Text

  datatype Bed = Front | Back
  datatype Dir = Plus | Minus

  /** A needle: a bed and an index on it. Used directly as a map key. */
  datatype Needle = Needle(bed: Bed, index: int)

  /** One entry of a yarn list: a yarn id and the length of yarn it feeds. */
  datatype YarnLength = YarnLength(yarn: nat, length: real)

  /** One formal-knitout operation, carrying exactly the fields legal for it. */
  datatype Op =
    | Knit(direction: Dir, needle: Needle, length: real, yarns: seq<YarnLength>)
    | Tuck(direction: Dir, needle: Needle, length: real, yarns: seq<YarnLength>)
    | Split(direction: Dir, needle: Needle, target: Needle, length: real, yarns: seq<YarnLength>)
    | Miss(direction: Dir, needle: Needle, yarn: nat)
    | In(direction: Dir, needle: Needle, yarn: nat)
    | Out(direction: Dir, needle: Needle, yarn: nat)
    | Drop(needle: Needle)
    | Xfer(needle: Needle, target: Needle)
    | Rack(rack: int)

  /** A parsed instruction with the number of the line it came from and its comment, if any. */
  datatype Instruction = Instruction(op: Op, line: nat, comment: Option<string>)

  datatype ParseError = ParseError(line: nat, message: string)

  /** What one line contributes to the parse. */
  datatype LineOutcome = Blank | Parsed(instruction: Instruction) | Failed(error: ParseError)

  // ---------------------------------------------------------------- single tokens

  function BedText(b: Bed): string {
    if b == Front then "f" else "b"
  }

  /** How a needle is written: `f.3`, `b.-2`. */
  function NeedleText(n: Needle): string {
    BedText(n.bed) + "." + IntToString(n.index)
  }

  /** A needle token `(f|b)\.(-?\d+)`, read as its bed and integer index. */
  function ParseNeedle(tok: string): Result<Needle> {
    if |tok| >= 2 && (tok[0] == 'f' || tok[0] == 'b') && tok[1] == '.' && IsSignedDecimal(tok[2..]) then
      Success(Needle(if tok[0] == 'f' then Front else Back, SignedValue(tok[2..])))
    else
      Failure("Expecting bed.index but got '" + tok + "'.")
  }

  function DirOf(tok: string): Option<Dir> {
    if tok == "+" then Some(Plus) else if tok == "-" then Some(Minus) else None
  }

  /** A bare yarn id `[0-9]|[1-9]\d+`. */
  function YarnOf(tok: string): Option<nat> {
    if IsCanonical(tok) then Some(DecimalValue(tok)) else None
  }

  /** A racking value `[-+]?([0-9]|[1-9]\d+)`. */
  function RackOf(tok: string): Option<int> {
    if |tok| > 0 && (tok[0] == '-' || tok[0] == '+') && IsCanonical(tok[1..]) then
      var magnitude: int := DecimalValue(tok[1..]);
      Some(if tok[0] == '-' then -magnitude else magnitude)
    else if IsCanonical(tok) then Some(DecimalValue(tok))
    else None
  }

  predicate IsLengthChar(c: char) {
    c == '-' || c == '+' || IsDigit(c) || c == '.' || c == 'e' || c == 'E'
  }

  /** The shape `\(([0-9]|[1-9]\d+),([-+0-9.eE]+)\)` of a yarn-list token: its id and its length text. */
  function YarnSyntax(tok: string): Option<(nat, string)> {
    if |tok| >= 2 && tok[0] == '(' && tok[|tok| - 1] == ')' then
      var inner := tok[1..|tok| - 1];
      var k := FindChar(inner, ',');
      if k < |inner| && IsCanonical(inner[..k]) && |inner[k + 1..]| > 0
         && forall j :: k + 1 <= j < |inner| ==> IsLengthChar(inner[j])
      then Some((DecimalValue(inner[..k]), inner[k + 1..]))
      else None
    else None
  }

  /**
   * A yarn-list token whose length text is a finite number. `num` stands for JavaScript's
   * `Number(text)` followed by `isFinite`: it gives the value, or nothing when it is not finite.
   */
  function YarnToken(tok: string, num: string -> Option<real>): Option<YarnLength> {
    match YarnSyntax(tok)
    case None => None
    case Some((yarn, text)) => if num(text).Some? then Some(YarnLength(yarn, num(text).value)) else None
  }

  /** Every token is a yarn entry and no yarn id occurs twice. */
  predicate YarnsOk(ts: seq<string>, num: string -> Option<real>) {
    && (forall i :: 0 <= i < |ts| ==> YarnToken(ts[i], num).Some?)
    && (forall i, j :: 0 <= i < j < |ts| ==> YarnToken(ts[i], num).value.yarn != YarnToken(ts[j], num).value.yarn)
  }

  function YarnsOf(ts: seq<string>, num: string -> Option<real>): (r: seq<YarnLength>)
    requires forall i :: 0 <= i < |ts| ==> YarnToken(ts[i], num).Some?
    ensures |r| == |ts|
  {
    seq(|ts|, i requires 0 <= i < |ts| => YarnToken(ts[i], num).value)
  }

  // ---------------------------------------------------------------- the grammar

  /**
   * The grammar of a token line, stated position by position: the operation a well-formed line
   * denotes, or nothing. A yarn list takes every token after the length, so only miss, in, out,
   * drop, xfer and rack have a fixed token count.
   */
  function Grammar(t: seq<string>, num: string -> Option<real>): Option<Op>
    requires |t| > 0
  {
    var op := t[0];
    if op == "knit" || op == "tuck" then
      if |t| >= 5 && (op == "knit" || |t| == 5) && DirOf(t[1]).Some? && ParseNeedle(t[2]).Success?
         && num(t[3]).Some? && YarnsOk(t[4..], num)
      then
        var d, n, l, ys := DirOf(t[1]).value, ParseNeedle(t[2]).value, num(t[3]).value, YarnsOf(t[4..], num);
        Some(if op == "knit" then Knit(d, n, l, ys) else Tuck(d, n, l, ys))
      else None
    else if op == "split" then
      if |t| >= 6 && DirOf(t[1]).Some? && ParseNeedle(t[2]).Success? && ParseNeedle(t[3]).Success?
         && num(t[4]).Some? && YarnsOk(t[5..], num)
      then Some(Split(DirOf(t[1]).value, ParseNeedle(t[2]).value, ParseNeedle(t[3]).value, num(t[4]).value, YarnsOf(t[5..], num)))
      else None
    else if op == "miss" || op == "in" || op == "out" then
      if |t| == 4 && DirOf(t[1]).Some? && ParseNeedle(t[2]).Success? && YarnOf(t[3]).Some? then
        var d, n, y := DirOf(t[1]).value, ParseNeedle(t[2]).value, YarnOf(t[3]).value;
        Some(if op == "miss" then Miss(d, n, y) else if op == "in" then In(d, n, y) else Out(d, n, y))
      else None
    else if op == "drop" then
      if |t| == 2 && ParseNeedle(t[1]).Success? then Some(Drop(ParseNeedle(t[1]).value)) else None
    else if op == "xfer" then
      if |t| == 3 && ParseNeedle(t[1]).Success? && ParseNeedle(t[2]).Success? then
        Some(Xfer(ParseNeedle(t[1]).value, ParseNeedle(t[2]).value))
      else None
    else if op == "rack" then
      if |t| == 2 && RackOf(t[1]).Some? then Some(Rack(RackOf(t[1]).value)) else None
    else None
  }

  /** The text before the first `;`. */
  function CodeOf(text: string): string {
    text[..FindChar(text, ';')]
  }

  /** The text after the first `;`, when there is one. */
  function CommentOf(text: string): Option<string> {
    var k := FindChar(text, ';');
    if k < |text| then Some(text[k + 1..]) else None
  }

  function LineTokens(text: string): seq<string> {
    Tokens(CodeOf(text), IsJsSpace)
  }

  datatype LineKind = BlankLine | Good | Bad

  /** Whether a line has no tokens, is well formed, or is malformed. */
  function Kind(text: string, num: string -> Option<real>): LineKind {
    var t := LineTokens(text);
    if t == [] then BlankLine else if Grammar(t, num).Some? then Good else Bad
  }

  // ---------------------------------------------------------------- the field consumers

  function TakeDir(ts: seq<string>): Result<Dir> {
    if |ts| == 0 then Failure("Expecting direction but ran out of tokens.")
    else if DirOf(ts[0]).Some? then Success(DirOf(ts[0]).value)
    else Failure("Expecting +/- for direction, but got '" + ts[0] + "'.")
  }

  function TakeNeedle(ts: seq<string>): Result<Needle> {
    if |ts| == 0 then Failure("Expecting needle but ran out of tokens.") else ParseNeedle(ts[0])
  }

  function TakeLength(ts: seq<string>, num: string -> Option<real>): Result<real> {
    if |ts| == 0 then Failure("Expecting length but ran out of tokens.")
    else if num(ts[0]).Some? then Success(num(ts[0]).value)
    else Failure("Expecting length, got '" + ts[0] + "'.")
  }

  function TakeYarn(ts: seq<string>): Result<nat> {
    if |ts| == 0 then Failure("Expecting yarn but ran out of tokens.")
    else if YarnOf(ts[0]).Some? then Success(YarnOf(ts[0]).value)
    else Failure("Expecting yarn but got '" + ts[0] + "'.")
  }

  function TakeRack(ts: seq<string>): Result<int> {
    if |ts| == 0 then Failure("Expecting rack but ran out of tokens.")
    else if RackOf(ts[0]).Some? then Success(RackOf(ts[0]).value)
    else Failure("Expecting rack but got '" + ts[0] + "'.")
  }

  /**
   * The yarn-list consumer: reads every remaining token as a `(yarn,length)` entry, refusing a
   * malformed entry, a yarn id already used in the list, and a length that is not finite.
   */
  method ReadYarns(ts: seq<string>, num: string -> Option<real>) returns (r: Result<seq<YarnLength>>)
    ensures r.Success? <==> YarnsOk(ts, num)
    ensures r.Success? ==> r.value == YarnsOf(ts, num)
  {
    var yarns: seq<YarnLength> := [];
    var used: set<nat> := {};
    var i := 0;
    while i < |ts|
      invariant 0 <= i <= |ts|
      invariant YarnsOk(ts[..i], num)
      invariant yarns == YarnsOf(ts[..i], num)
      invariant used == set e | e in yarns :: e.yarn
    {
      var tok := ts[i];
      match YarnSyntax(tok) {
      case None =>
        assert YarnToken(ts[i], num).None?;
        return Failure("Expecting '(yarn,length)' but got '" + tok + "'.");
      case Some((yarn, text)) =>
        if yarn in used {
          var e :| e in yarns && e.yarn == yarn;
          var j :| 0 <= j < i && yarns[j] == e;
          assert ts[..i][j] == ts[j];
          YarnsReused(ts, j, i, num);
          return Failure("Yarn " + NatToString(yarn) + " reused in yarns.");
        }
        used := used + {yarn};
        var length := num(text);
        if length.None? {
          assert YarnToken(ts[i], num).None?;
          return Failure("Expecting length in yarn but got '" + text + "'.");
        }
        assert forall k :: 0 <= k < i ==> yarns[k] in yarns;
        YarnsExtend(ts, i, num);
        yarns := yarns + [YarnLength(yarn, length.value)];
      }
      i := i + 1;
    }
    assert ts[..i] == ts;
    r := Success(yarns);
  }

  /** A yarn entry whose id an earlier entry already used rules the list out. */
  lemma YarnsReused(ts: seq<string>, j: nat, i: nat, num: string -> Option<real>)
    requires j < i < |ts| && YarnToken(ts[j], num).Some? && YarnSyntax(ts[i]).Some?
    requires YarnSyntax(ts[i]).value.0 == YarnToken(ts[j], num).value.yarn
    ensures !YarnsOk(ts, num)
  {
  }

  /** A good list extended by an entry whose id it does not use is good, and reads as one more entry. */
  lemma YarnsExtend(ts: seq<string>, i: nat, num: string -> Option<real>)
    requires i < |ts| && YarnsOk(ts[..i], num) && YarnToken(ts[i], num).Some?
    requires forall k :: 0 <= k < i ==> YarnsOf(ts[..i], num)[k].yarn != YarnToken(ts[i], num).value.yarn
    ensures YarnsOk(ts[..i + 1], num)
    ensures YarnsOf(ts[..i + 1], num) == YarnsOf(ts[..i], num) + [YarnToken(ts[i], num).value]
  {
    var read := ts[..i + 1];
    assert read == ts[..i] + [ts[i]];
    forall a, b | 0 <= a < b < i + 1
      ensures YarnToken(read[a], num).value.yarn != YarnToken(read[b], num).value.yarn
    {
      assert read[a] == ts[..i][a];
      if b < i {
        assert read[b] == ts[..i][b];
      } else {
        assert YarnsOf(ts[..i], num)[a].yarn != YarnToken(ts[i], num).value.yarn;
      }
    }
  }

  /**
   * The field consumers run for operation `op` over the tokens after it, shifting tokens off the
   * front as each field is read; a token left over at the end is an error.
   */
  method ParseFields(op: string, ts: seq<string>, num: string -> Option<real>) returns (r: Result<Op>)
    ensures r.Success? <==> Grammar([op] + ts, num).Some?
    ensures r.Success? ==> r.value == Grammar([op] + ts, num).value
  {
    var result: Op;
    var tokens: seq<string>;
    if op == "knit" || op == "tuck" || op == "split" {
      var read :- ReadStitch(op, ts, num);
      result, tokens := read.0, read.1;
    } else if op == "miss" || op == "in" || op == "out" {
      var read :- ReadCarrierOp(op, ts, num);
      result, tokens := read.0, read.1;
    } else if op == "drop" || op == "xfer" || op == "rack" {
      var read :- ReadBareOp(op, ts, num);
      result, tokens := read.0, read.1;
    } else {
      return Failure("Unrecognized operation '" + op + "'.");
    }
    if |tokens| > 0 {
      return Failure("Extra tokens at end of line.");
    }
    r := Success(result);
  }

  /** The fields of knit, tuck and split; the yarn list takes every remaining token. */
  method ReadStitch(op: string, ts: seq<string>, num: string -> Option<real>) returns (r: Result<(Op, seq<string>)>)
    requires op == "knit" || op == "tuck" || op == "split"
    ensures r.Success? <==> Grammar([op] + ts, num).Some?
    ensures r.Success? ==> r.value == (Grammar([op] + ts, num).value, [])
  {
    ghost var t := [op] + ts;
    var tokens := ts;
    var d :- TakeDir(tokens);
    tokens := tokens[1..];
    var n :- TakeNeedle(tokens);
    tokens := tokens[1..];
    var target := n;
    if op == "split" {
      target :- TakeNeedle(tokens);
      tokens := tokens[1..];
    }
    var l :- TakeLength(tokens, num);
    tokens := tokens[1..];
    assert tokens == if op == "split" then t[5..] else t[4..];
    var ys :- ReadYarns(tokens, num);
    tokens := [];
    var result: Op;
    if op == "knit" {
      if |ys| == 0 { return Failure("Knit must have at least one yarn."); }
      result := Knit(d, n, l, ys);
    } else if op == "tuck" {
      if |ys| != 1 { return Failure("Tuck must have exactly one yarn."); }
      result := Tuck(d, n, l, ys);
    } else {
      if |ys| == 0 { return Failure("Split must have at least one yarn."); }
      result := Split(d, n, target, l, ys);
    }
    r := Success((result, tokens));
  }

  /** The fields of miss, in and out: a direction, a needle and one yarn id. */
  method ReadCarrierOp(op: string, ts: seq<string>, num: string -> Option<real>) returns (r: Result<(Op, seq<string>)>)
    requires op == "miss" || op == "in" || op == "out"
    ensures (r.Success? && r.value.1 == []) <==> Grammar([op] + ts, num).Some?
    ensures r.Success? && r.value.1 == [] ==> r.value.0 == Grammar([op] + ts, num).value
  {
    var tokens := ts;
    var d :- TakeDir(tokens);
    tokens := tokens[1..];
    var n :- TakeNeedle(tokens);
    tokens := tokens[1..];
    var y :- TakeYarn(tokens);
    tokens := tokens[1..];
    var result := if op == "miss" then Miss(d, n, y) else if op == "in" then In(d, n, y) else Out(d, n, y);
    r := Success((result, tokens));
  }

  /** The fields of drop (a needle), xfer (two needles) and rack (a racking value). */
  method ReadBareOp(op: string, ts: seq<string>, num: string -> Option<real>) returns (r: Result<(Op, seq<string>)>)
    requires op == "drop" || op == "xfer" || op == "rack"
    ensures (r.Success? && r.value.1 == []) <==> Grammar([op] + ts, num).Some?
    ensures r.Success? && r.value.1 == [] ==> r.value.0 == Grammar([op] + ts, num).value
  {
    var tokens := ts;
    var result: Op;
    if op == "drop" {
      var n :- TakeNeedle(tokens);
      tokens := tokens[1..];
      result := Drop(n);
    } else if op == "xfer" {
      var n :- TakeNeedle(tokens);
      tokens := tokens[1..];
      var target :- TakeNeedle(tokens);
      tokens := tokens[1..];
      result := Xfer(n, target);
    } else {
      var rack :- TakeRack(tokens);
      tokens := tokens[1..];
      result := Rack(rack);
    }
    r := Success((result, tokens));
  }

  /** One line of a formal-knitout program, numbered from 1. */
  method ParseLine(text: string, lineNumber: nat, num: string -> Option<real>) returns (r: LineOutcome)
    ensures r.Blank? <==> Kind(text, num) == BlankLine
    ensures r.Parsed? <==> Kind(text, num) == Good
    ensures r.Failed? <==> Kind(text, num) == Bad
    ensures r.Parsed? ==> r.instruction == Instruction(Grammar(LineTokens(text), num).value, lineNumber, CommentOf(text))
    ensures r.Failed? ==> r.error.line == lineNumber
  {
    var comment := CommentOf(text);
    var tokens := Tokens(CodeOf(text), IsJsSpace);
    if |tokens| == 0 {
      return Blank;
    }
    var op := tokens[0];
    assert LineTokens(text) == [op] + tokens[1..];
    tokens := tokens[1..];
    var fields := ParseFields(op, tokens, num);
    match fields
    case Success(o) => r := Parsed(Instruction(o, lineNumber, comment));
    case Failure(message) => r := Failed(ParseError(lineNumber, message));
  }

  // ---------------------------------------------------------------- whole programs

  /** The instructions of the well-formed lines, in order. */
  function ParsedInstructions(lines: seq<string>, num: string -> Option<real>): seq<Instruction>
    decreases |lines|
  {
    if lines == [] then []
    else
      var prev := ParsedInstructions(lines[..|lines| - 1], num);
      var last := lines[|lines| - 1];
      if Kind(last, num) == Good then
        prev + [Instruction(Grammar(LineTokens(last), num).value, |lines|, CommentOf(last))]
      else prev
  }

  /** The numbers of the lines of `lines` whose kind is `kind`, in order. */
  function LinesOfKind(lines: seq<string>, num: string -> Option<real>, kind: LineKind): seq<nat>
    decreases |lines|
  {
    if lines == [] then []
    else
      var prev := LinesOfKind(lines[..|lines| - 1], num, kind);
      if Kind(lines[|lines| - 1], num) == kind then prev + [|lines|] else prev
  }

  function ErrorLines(errors: seq<ParseError>): seq<nat> {
    seq(|errors|, i requires 0 <= i < |errors| => errors[i].line)
  }

  /**
   * `parse`: every line is parsed; well-formed lines give the instructions, malformed lines one
   * error each carrying their line number, lines without tokens nothing.
   */
  method Parse(lines: seq<string>, num: string -> Option<real>) returns (instructions: seq<Instruction>, errors: seq<ParseError>)
    ensures instructions == ParsedInstructions(lines, num)
    ensures ErrorLines(errors) == LinesOfKind(lines, num, Bad)
    ensures |instructions| + |errors| + |LinesOfKind(lines, num, BlankLine)| == |lines|
  {
    instructions, errors := [], [];
    var lineNumber := 1;
    while lineNumber <= |lines|
      invariant 1 <= lineNumber <= |lines| + 1
      invariant instructions == ParsedInstructions(lines[..lineNumber - 1], num)
      invariant ErrorLines(errors) == LinesOfKind(lines[..lineNumber - 1], num, Bad)
    {
      var outcome := ParseLine(lines[lineNumber - 1], lineNumber, num);
      ghost var done := lines[..lineNumber];
      assert done[..|done| - 1] == lines[..lineNumber - 1];
      match outcome {
        case Blank =>
        case Parsed(instruction) => instructions := instructions + [instruction];
        case Failed(error) =>
          errors := errors + [error];
          assert ErrorLines(errors) == ErrorLines(errors[..|errors| - 1]) + [error.line];
      }
      lineNumber := lineNumber + 1;
    }
    assert lines[..lineNumber - 1] == lines;
    LinesPartition(lines, num);
  }

  /** `parse` given the whole program as one string: it is split at `\r?\n` first. */
  method ParseText(text: string, num: string -> Option<real>) returns (instructions: seq<Instruction>, errors: seq<ParseError>)
    ensures instructions == ParsedInstructions(SplitLines(text), num)
    ensures ErrorLines(errors) == LinesOfKind(SplitLines(text), num, Bad)
    ensures |instructions| + |errors| + |LinesOfKind(SplitLines(text), num, BlankLine)| == |SplitLines(text)|
  {
    instructions, errors := Parse(SplitLines(text), num);
  }

  /** Every line is counted exactly once: as an instruction, as an error, or as a blank line. */
  lemma {:induction false} LinesPartition(lines: seq<string>, num: string -> Option<real>)
    ensures |ParsedInstructions(lines, num)| + |LinesOfKind(lines, num, Bad)| + |LinesOfKind(lines, num, BlankLine)| == |lines|
    decreases |lines|
  {
    if lines != [] {
      LinesPartition(lines[..|lines| - 1], num);
    }
  }

  /**
   * A line number is reported as an error exactly when the line is malformed, and lies among the
   * blank lines exactly when no tokens remain on it.
   */
  lemma {:induction false} LineAccounted(lines: seq<string>, num: string -> Option<real>, k: nat, kind: LineKind)
    requires 1 <= k <= |lines|
    ensures k in LinesOfKind(lines, num, kind) <==> Kind(lines[k - 1], num) == kind
    decreases |lines|
  {
    LinesOfKindBounded(lines[..|lines| - 1], num, kind);
    if k < |lines| {
      LineAccounted(lines[..|lines| - 1], num, k, kind);
    }
  }

  /** The line numbers listed for a program lie between 1 and its length and increase strictly. */
  lemma {:induction false} LinesOfKindBounded(lines: seq<string>, num: string -> Option<real>, kind: LineKind)
    ensures forall i :: 0 <= i < |LinesOfKind(lines, num, kind)| ==> 1 <= LinesOfKind(lines, num, kind)[i] <= |lines|
    ensures forall i, j :: 0 <= i < j < |LinesOfKind(lines, num, kind)| ==> LinesOfKind(lines, num, kind)[i] < LinesOfKind(lines, num, kind)[j]
    decreases |lines|
  {
    if lines != [] {
      LinesOfKindBounded(lines[..|lines| - 1], num, kind);
    }
  }

  // ---------------------------------------------------------------- properties of the grammar

  /** Printing a needle and reading it back gives the needle. */
  lemma NeedleRoundTrip(n: Needle)
    ensures ParseNeedle(NeedleText(n)) == Success(n)
  {
    var tok := NeedleText(n);
    IntRoundTrip(n.index);
    assert tok[2..] == IntToString(n.index);
  }

  lemma NeedleExamples()
    ensures ParseNeedle("f.3") == Success(Needle(Front, 3))
    ensures ParseNeedle("b.-12") == Success(Needle(Back, -12))
    ensures ParseNeedle("f3").Failure? && ParseNeedle("x.3").Failure? && ParseNeedle("f.3.5").Failure?
  {
    assert "f.3"[2..] == "3";
    assert "b.-12"[2..] == "-12" && "-12"[1..] == "12";
    assert "12"[..1] == "1";
    assert "f.3.5"[2..] == "3.5" && !IsDigit("3.5"[1]);
  }

  /** Knit and split need at least one yarn, tuck exactly one. */
  lemma YarnCounts(t: seq<string>, num: string -> Option<real>)
    requires |t| > 0 && Grammar(t, num).Some?
    ensures t[0] == "knit" ==> |Grammar(t, num).value.yarns| >= 1
    ensures t[0] == "split" ==> |Grammar(t, num).value.yarns| >= 1
    ensures t[0] == "tuck" ==> |Grammar(t, num).value.yarns| == 1
  {
  }

  /** The ids within one yarn list are distinct. */
  lemma YarnIdsDistinct(t: seq<string>, num: string -> Option<real>)
    requires |t| > 0 && Grammar(t, num).Some?
    requires Grammar(t, num).value.Knit? || Grammar(t, num).value.Tuck? || Grammar(t, num).value.Split?
    ensures forall i, j :: 0 <= i < j < |Grammar(t, num).value.yarns| ==>
      Grammar(t, num).value.yarns[i].yarn != Grammar(t, num).value.yarns[j].yarn
  {
  }

  /** An operation name outside the nine is refused whatever follows it. */
  lemma UnknownOperation(t: seq<string>, num: string -> Option<real>)
    requires |t| > 0
    requires t[0] !in ["knit", "tuck", "split", "miss", "in", "out", "drop", "xfer", "rack"]
    ensures Grammar(t, num).None?
  {
  }

  /** A token beyond the fixed fields of miss, in, out, drop, xfer or rack is refused. */
  lemma LeftoverTokens(t: seq<string>, extra: string, num: string -> Option<real>)
    requires |t| > 0 && Grammar(t, num).Some?
    requires t[0] in ["miss", "in", "out", "drop", "xfer", "rack"]
    ensures Grammar(t + [extra], num).None?
  {
  }
}
