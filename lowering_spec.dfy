/**
 * Knitout to formal knitout (`k2f.mjs`): what translating one knitout line does to the pass state.
 *
 * `LineStep` is the reference definition of the body of the per-line loop; the class in
 * `LoweringPass` performs the same steps in place and is proved to agree with it.
 */
module LoweringSpec {
  import opened Results
  import opened Text
  import opened FormalSyntax
  import opened LoweringState

  function Dist(a: int, b: int): nat {
    if a < b then b - a else a - b
  }

  /** Two distinct odd numbers are at least two apart. */
  lemma OddGap(a: int, b: int)
    requires a % 2 == 1 && b % 2 == 1 && a != b
    ensures a < b ==> a + 2 <= b
    ensures b < a ==> b + 2 <= a
  {
  }

  function NotNamed(cn: string): string {
    "Carrier '" + cn + "' not named in Carriers comment header."
  }

  /** What the source reports when an operand is missing: it reads a property of `undefined` and stops. */
  const MissingOperand: string := "TypeError: missing operand"

  // ---------------------------------------------------------------- in / out

  /** `in`/`inhook` for one carrier: it must be named and out; it becomes pending at the next output slot. */
  function BringIn(c: Cursor, cn: string): Result<Cursor> {
    if cn !in c.st.carriers then Failure(NotNamed(cn))
    else
      var car := c.st.carriers[cn];
      if car.state.Parked? then Failure("Can't in '" + cn + "' -- it's already in.")
      else if car.state.Pending? then Failure("Can't in '" + cn + "' -- it's pending.")
      else
        var marked := c.st.(carriers := c.st.carriers[cn := Carrier(car.yarn, Pending(|c.st.output|, c.original))]);
        Success(Emit(Cursor(marked, c.original), Placeholder(cn)))
  }

  function BringInAll(c: Cursor, cs: seq<string>): Result<Cursor>
    decreases |cs|
  {
    if cs == [] then Success(c)
    else
      var next :- BringIn(c, cs[0]);
      BringInAll(next, cs[1..])
  }

  /** `out`/`outhook` for one carrier: it must be in; the out is written one needle past its attachment. */
  function TakeOut(c: Cursor, cn: string): Result<Cursor> {
    if cn !in c.st.carriers then Failure(NotNamed(cn))
    else
      var car := c.st.carriers[cn];
      match car.state
      case Parked(_, a) =>
        var n := Needle(a.needle.bed, a.needle.index + (if a.direction == "+" then 1 else -1));
        var written := Emit(c, OutAt(a.direction, n, car.yarn));
        Success(written.(st := written.st.(carriers := c.st.carriers[cn := Carrier(car.yarn, Absent)])))
      case Pending(_, _) => Failure("Can't out '" + cn + "' -- it's pending, not in.")
      case Absent => Failure("Can't out '" + cn + "' -- it isn't in.")
  }

  function TakeOutAll(c: Cursor, cs: seq<string>): Result<Cursor>
    decreases |cs|
  {
    if cs == [] then Success(c)
    else
      var next :- TakeOut(c, cs[0]);
      TakeOutAll(next, cs[1..])
  }

  // ---------------------------------------------------------------- racking

  /** A racking token `[+-]?\d*\.?\d+` read as a number: not one, one with a fractional part, or an integer. */
  datatype RackValue = NotNumber | Fractional | Whole(value: int)

  predicate AllZeros(s: string) {
    forall j :: 0 <= j < |s| ==> s[j] == '0'
  }

  function Signed(negative: bool, magnitude: int): int {
    if negative then -magnitude else magnitude
  }

  function ReadRacking(tok: string): RackValue {
    var signed := |tok| > 0 && (tok[0] == '+' || tok[0] == '-');
    var negative := |tok| > 0 && tok[0] == '-';
    var body := if signed then tok[1..] else tok;
    var dot := FindChar(body, '.');
    var whole := body[..dot];
    if dot == |body| then
      if IsDecimal(body) then Whole(Signed(negative, DecimalValue(body))) else NotNumber
    else
      var fraction := body[dot + 1..];
      if !IsDigits(whole) || !IsDecimal(fraction) then NotNumber
      else if !AllZeros(fraction) then Fractional
      else Whole(Signed(negative, DecimalValue(whole)))
  }

  /**
   * The `while (racking != newRacking)` loop: step the racking by one towards `target`, writing a
   * `rack` line for every intermediate value, the first one carrying the original line.
   */
  function RackSteps(c: Cursor, target: int): (r: Cursor)
    ensures r.st.racking == target
    ensures r.st.carriers == c.st.carriers && r.st.loops == c.st.loops
    ensures |r.st.output| == |c.st.output| + Dist(c.st.racking, target)
    ensures r.st.output[..|c.st.output|] == c.st.output
    ensures forall j :: |c.st.output| <= j < |r.st.output| ==>
      r.st.output[j] == Line(
        RackAt(if c.st.racking < target then c.st.racking + (j - |c.st.output| + 1) else c.st.racking - (j - |c.st.output| + 1)),
        if j == |c.st.output| then c.original else "")
    ensures r.original == if c.st.racking == target then c.original else ""
    decreases Dist(c.st.racking, target)
  {
    if c.st.racking == target then c
    else
      var next := if c.st.racking < target then c.st.racking + 1 else c.st.racking - 1;
      var stepped := Emit(Cursor(c.st.(racking := next), c.original), RackAt(next));
      var r := RackSteps(stepped, target);
      assert r.st.output[..|c.st.output|] == c.st.output by {
        assert r.st.output[..|c.st.output| + 1] == stepped.st.output;
      }
      r
  }

  /** `rack`: one whole-number argument; an unchanged racking writes only a comment. */
  function RackLine(c: Cursor, args: seq<string>): Result<Cursor> {
    if |args| != 1 then Failure("racking takes one argument")
    else match ReadRacking(args[0])
      case NotNumber => Failure("racking must be a number")
      case Fractional => Failure("quarter-pitch racking conversion not supported yet")
      case Whole(v) => if v == c.st.racking then Success(Emit(c, RackNotNeeded)) else Success(RackSteps(c, v))
  }

  // ---------------------------------------------------------------- operands of miss/tuck/knit/split

  /** A knitout needle `[fb]s?-?\d+`: a bed, whether it is a slider, and an index. */
  datatype KnitoutNeedle = KnitoutNeedle(bed: Bed, slider: bool, index: int)

  function ReadNeedle(tok: string): Result<KnitoutNeedle> {
    if |tok| >= 2 && (tok[0] == 'f' || tok[0] == 'b') then
      var bed := if tok[0] == 'f' then Front else Back;
      if tok[1] == 's' && IsSignedDecimal(tok[2..]) then Success(KnitoutNeedle(bed, true, SignedValue(tok[2..])))
      else if IsSignedDecimal(tok[1..]) then Success(KnitoutNeedle(bed, false, SignedValue(tok[1..])))
      else Failure("invalid needle specification '" + tok + "'")
    else Failure("invalid needle specification '" + tok + "'")
  }

  /** A knitout line after synonyms are resolved. */
  datatype Request = Request(op: string, args: seq<string>, expectNoCarriers: bool)

  /** `amiss`, `drop` and `xfer` are `tuck +`, `knit +` and `split +` that must list no carriers. */
  function Synonym(op: string, args: seq<string>): Request {
    if op == "amiss" then Request("tuck", ["+"] + args, true)
    else if op == "drop" then Request("knit", ["+"] + args, true)
    else if op == "xfer" then Request("split", ["+"] + args, true)
    else Request(op, args, false)
  }

  /** The operands of a miss/tuck/knit/split: direction, needle, target (split only) and carrier names. */
  datatype Operands = Operands(direction: string, needle: Needle, target: Option<Needle>, carriers: seq<string>)

  function ReadOperands(op: string, args: seq<string>, expectNoCarriers: bool): Result<Operands> {
    if |args| < 2 then Failure(MissingOperand)
    else
      var n :- ReadNeedle(args[1]);
      var split := op == "split";
      if split && |args| < 3 then Failure(MissingOperand)
      else
        var t :- if split then ReadNeedle(args[2]) else Success(n);
        if n.slider || (split && t.slider) then Failure("sliders not supported yet by translation code")
        else
          var cs := if split then args[3..] else args[2..];
          if expectNoCarriers && |cs| != 0 then Failure("cannot amiss/drop/xfer with carriers (use tuck/knit/split).")
          else if |cs| == 0 && op == "miss" then Failure("it makes no sense to miss with no yarns.")
          else Success(Operands(args[0], Needle(n.bed, n.index), if split then Some(Needle(t.bed, t.index)) else None, cs))
  }

  // ---------------------------------------------------------------- bringing carriers to the needle

  /** Where a carrier must stand before the operation: one needle back from `n`, facing the direction of travel. */
  function Before(o: Operands): Loc {
    Loc(Needle(o.needle.bed, o.needle.index + (if o.direction == "+" then -1 else 1)), o.direction)
  }

  /** One unit step of a parked carrier up (`up`) or down: turn around at the needle, or move to the next needle. */
  function StepToward(p: Loc, up: bool): (q: Loc)
    ensures q.needle.bed == p.needle.bed
  {
    if up then
      if p.direction == "-" then Loc(p.needle, "+") else Loc(Needle(p.needle.bed, p.needle.index + 1), p.direction)
    else
      if p.direction == "+" then Loc(p.needle, "-") else Loc(Needle(p.needle.bed, p.needle.index - 1), p.direction)
  }

  /**
   * The positions a parked carrier passes through on its way to half-position `target`; each one
   * is written as a `miss`.
   */
  function WalkPath(p: Loc, target: int, racking: int): (path: seq<Loc>)
    requires target % 2 == 1
    ensures |path| == Dist(Half(p, racking), target) / 2
    ensures forall i :: 0 <= i < |path| ==> path[i].needle.bed == p.needle.bed
    ensures forall i :: 0 <= i < |path| ==>
      Half(path[i], racking) == (if Half(p, racking) < target then Half(p, racking) + 2 * (i + 1) else Half(p, racking) - 2 * (i + 1))
    decreases Dist(Half(p, racking), target)
  {
    var current := Half(p, racking);
    if current == target then []
    else
      var q := StepToward(p, current < target);
      assert Half(q, racking) == if current < target then current + 2 else current - 2;
      var rest := WalkPath(q, target, racking);
      assert forall i :: 1 <= i < |rest| + 1 ==> ([q] + rest)[i] == rest[i - 1];
      [q] + rest
  }

  /** The `miss` lines of a walk: the direction of travel, the needle passed, the yarn. */
  function MissLines(path: seq<Loc>, direction: string, yarn: nat, original: string): (lines: seq<Line>)
    ensures |lines| == |path|
  {
    seq(|path|, i requires 0 <= i < |path| => Line(MissAt(direction, path[i].needle, yarn), if i == 0 then original else ""))
  }

  function Last(p: Loc, path: seq<Loc>): Loc {
    if path == [] then p else path[|path| - 1]
  }

  /** Walk the parked carrier `cn` to half-position `target` one step at a time, writing a `miss` for every step. */
  function Walk(c: Cursor, cn: string, target: int): Cursor
    requires cn in c.st.carriers && c.st.carriers[cn].state.Parked?
    requires target % 2 == 1
    decreases Dist(Half(c.st.carriers[cn].state.parked, c.st.racking), target)
  {
    var car := c.st.carriers[cn];
    var p := car.state.parked;
    var current := Half(p, c.st.racking);
    if current == target then c
    else
      Walk(WalkStep(c, cn, current < target), cn, target)
  }

  /** One step of the walk: move the parked carrier one unit and write the `miss`. */
  function WalkStep(c: Cursor, cn: string, up: bool): (r: Cursor)
    requires cn in c.st.carriers && c.st.carriers[cn].state.Parked?
    ensures cn in r.st.carriers && r.st.carriers[cn].state.Parked? && r.st.racking == c.st.racking
    ensures Half(r.st.carriers[cn].state.parked, r.st.racking)
      == Half(c.st.carriers[cn].state.parked, c.st.racking) + (if up then 2 else -2)
  {
    var car := c.st.carriers[cn];
    var q := StepToward(car.state.parked, up);
    var moved := c.st.(carriers := c.st.carriers[cn := Carrier(car.yarn, Parked(q, car.state.attached))]);
    Emit(Cursor(moved, c.original), MissAt(if up then "+" else "-", q.needle, car.yarn))
  }

  /** A walk that has not arrived takes one step and goes on. */
  lemma WalkUnfold(c: Cursor, cn: string, target: int)
    requires cn in c.st.carriers && c.st.carriers[cn].state.Parked?
    requires target % 2 == 1
    requires Half(c.st.carriers[cn].state.parked, c.st.racking) != target
    ensures Walk(c, cn, target) == Walk(WalkStep(c, cn, Half(c.st.carriers[cn].state.parked, c.st.racking) < target), cn, target)
  {
  }

  lemma MissLinesCons(q: Loc, rest: seq<Loc>, direction: string, yarn: nat, original: string)
    ensures [Line(MissAt(direction, q.needle, yarn), original)] + MissLines(rest, direction, yarn, "")
      == MissLines([q] + rest, direction, yarn, original)
  {
  }

  /**
   * Where a walk ends, in closed form: the carrier parked at the end of `WalkPath` with its
   * attachment unchanged, and one `miss` per position of the path, all in the direction of the target.
   */
  function WalkEnd(c: Cursor, cn: string, target: int): (r: Cursor)
    requires cn in c.st.carriers && c.st.carriers[cn].state.Parked?
    requires target % 2 == 1
  {
    var car := c.st.carriers[cn];
    var p := car.state.parked;
    var path := WalkPath(p, target, c.st.racking);
    Cursor(
      c.st.(carriers := c.st.carriers[cn := Carrier(car.yarn, Parked(Last(p, path), car.state.attached))],
            output := c.st.output + MissLines(path, if Half(p, c.st.racking) < target then "+" else "-", car.yarn, c.original)),
      if path == [] then c.original else "")
  }

  /** One step of the walk does not change where it ends. */
  lemma WalkEndStep(c: Cursor, cn: string, target: int)
    requires cn in c.st.carriers && c.st.carriers[cn].state.Parked?
    requires target % 2 == 1
    requires Half(c.st.carriers[cn].state.parked, c.st.racking) != target
    ensures WalkEnd(c, cn, target) == WalkEnd(WalkStep(c, cn, Half(c.st.carriers[cn].state.parked, c.st.racking) < target), cn, target)
  {
    var car := c.st.carriers[cn];
    var p := car.state.parked;
    var up := Half(p, c.st.racking) < target;
    var q := StepToward(p, up);
    var next := WalkStep(c, cn, up);
    var rest := WalkPath(q, target, c.st.racking);
    WalkStepOutput(c, cn, target);
    assert next.st.carriers == c.st.carriers[cn := Carrier(car.yarn, Parked(q, car.state.attached))];
    assert WalkPath(p, target, c.st.racking) == [q] + rest;
    assert Last(q, rest) == Last(p, [q] + rest);
  }

  /** One step of the walk writes the first `miss` of the rest of the walk's lines. */
  lemma WalkStepOutput(c: Cursor, cn: string, target: int)
    requires cn in c.st.carriers && c.st.carriers[cn].state.Parked?
    requires target % 2 == 1
    requires Half(c.st.carriers[cn].state.parked, c.st.racking) != target
    ensures var next := WalkStep(c, cn, Half(c.st.carriers[cn].state.parked, c.st.racking) < target);
      WalkEnd(next, cn, target).st.output == WalkEnd(c, cn, target).st.output
  {
    var car := c.st.carriers[cn];
    var p := car.state.parked;
    var current := Half(p, c.st.racking);
    var up := current < target;
    var sign := if up then "+" else "-";
    var q := StepToward(p, up);
    var next := WalkStep(c, cn, up);
    var rest := WalkPath(q, target, c.st.racking);
    var line := Line(MissAt(sign, q.needle, car.yarn), c.original);
    assert next.st.output == c.st.output + [line] && next.original == "";
    assert WalkPath(p, target, c.st.racking) == [q] + rest;
    var sign' := if Half(q, c.st.racking) < target then "+" else "-";
    assert MissLines(rest, sign', car.yarn, "") == MissLines(rest, sign, car.yarn, "") by {
      HalfIsOdd(p, c.st.racking);
      OddGap(current, target);
      assert rest != [] ==> sign' == sign;
    }
    MissLinesCons(q, rest, sign, car.yarn, c.original);
    AppendAssoc(c.st.output, [line], MissLines(rest, sign, car.yarn, ""));
  }

  lemma AppendAssoc<T>(a: seq<T>, b: seq<T>, x: seq<T>)
    ensures a + b + x == a + (b + x)
  {
  }

  /** The walk ends where `WalkEnd` says. */
  lemma {:induction false} WalkFollowsPath(c: Cursor, cn: string, target: int)
    requires cn in c.st.carriers && c.st.carriers[cn].state.Parked?
    requires target % 2 == 1
    ensures Walk(c, cn, target) == WalkEnd(c, cn, target)
    decreases Dist(Half(c.st.carriers[cn].state.parked, c.st.racking), target)
  {
    var p := c.st.carriers[cn].state.parked;
    var current := Half(p, c.st.racking);
    if current == target {
      assert c.st.carriers[cn := Carrier(c.st.carriers[cn].yarn, Parked(p, c.st.carriers[cn].state.attached))] == c.st.carriers;
    } else {
      HalfIsOdd(p, c.st.racking);
      OddGap(current, target);
      WalkUnfold(c, cn, target);
      WalkFollowsPath(WalkStep(c, cn, current < target), cn, target);
      WalkEndStep(c, cn, target);
    }
  }

  /** The backpatched `in` line of a pending carrier first used at `before`: written on the front bed. */
  function InLine(before: Loc, yarn: nat, original: string, racking: int): Line {
    Line(InAt(before.direction, Column(before.needle, racking), yarn, original), "")
  }

  /**
   * Make carrier `cn` ready at `before`: a pending carrier is brought in there by overwriting its
   * placeholder, a parked one is walked there, an absent one is an error.
   */
  function SetUp(c: Cursor, cn: string, before: Loc): (r: Result<Cursor>)
    ensures r.Success? ==> r.value.st.carriers.Keys == c.st.carriers.Keys
    ensures r.Success? ==> cn in r.value.st.carriers && r.value.st.carriers[cn].state.Parked?
    ensures r.Success? ==> forall x :: x in c.st.carriers && x != cn ==> r.value.st.carriers[x] == c.st.carriers[x]
    ensures r.Success? ==> r.value.st.loops == c.st.loops && r.value.st.racking == c.st.racking
    ensures r.Success? ==> |r.value.st.output| >= |c.st.output|
  {
    if cn !in c.st.carriers then Failure(NotNamed(cn))
    else
      var car := c.st.carriers[cn];
      match car.state
      case Pending(index, original) =>
        var output := if index < |c.st.output| then c.st.output[index := InLine(before, car.yarn, original, c.st.racking)] else c.st.output;
        Success(c.(st := c.st.(carriers := c.st.carriers[cn := Carrier(car.yarn, Parked(before, before))], output := output)))
      case Parked(_, _) =>
        HalfIsOdd(before, c.st.racking);
        WalkFollowsPath(c, cn, Half(before, c.st.racking));
        Success(Walk(c, cn, Half(before, c.st.racking)))
      case Absent => Failure("Carrier '" + cn + "' isn't pending or in.")
  }

  /** Make every listed carrier ready, in order. */
  function SetUpAll(c: Cursor, cs: seq<string>, before: Loc): (r: Result<Cursor>)
    ensures r.Success? ==> r.value.st.carriers.Keys == c.st.carriers.Keys
    ensures r.Success? ==> AllParked(r.value.st.carriers, cs)
    ensures r.Success? ==> forall x :: x in c.st.carriers && c.st.carriers[x].state.Parked? ==> r.value.st.carriers[x].state.Parked?
    ensures r.Success? ==> forall x :: x in c.st.carriers && x !in cs ==> r.value.st.carriers[x] == c.st.carriers[x]
    ensures r.Success? ==> r.value.st.loops == c.st.loops && r.value.st.racking == c.st.racking
    decreases |cs|
  {
    if cs == [] then Success(c)
    else
      var next :- SetUp(c, cs[0], before);
      SetUpAll(next, cs[1..], before)
  }

  /** Setting up a non-empty list sets up its head, then the rest. */
  lemma SetUpAllUnfold(c: Cursor, cs: seq<string>, before: Loc)
    requires cs != []
    ensures SetUpAll(c, cs, before) == match SetUp(c, cs[0], before)
      case Failure(e) => Failure(e)
      case Success(next) => SetUpAll(next, cs[1..], before)
  {
  }

  // ---------------------------------------------------------------- forming the stitch

  /** Knit and split on a needle the loop table does not know become tuck. */
  function Decayed(op: string, n: Needle, loops: map<LoopKey, nat>): string {
    if (op == "knit" || op == "split") && At(n) !in loops then "tuck" else op
  }

  predicate AllParked(carriers: map<string, Carrier>, cs: seq<string>) {
    forall x :: x in cs ==> x in carriers && carriers[x].state.Parked?
  }

  /** The `(yarn,length)` of every listed carrier, measured from its attachment to `n`. */
  function YarnUses(st: LState, cs: seq<string>, n: Needle): (ys: seq<YarnUse>)
    requires AllParked(st.carriers, cs)
    ensures |ys| == |cs|
    ensures forall i :: 0 <= i < |cs| ==>
      ys[i] == YarnUse(st.carriers[cs[i]].yarn, YarnDistance(n, st.carriers[cs[i]].state.attached, st.racking))
  {
    seq(|cs|, i requires 0 <= i < |cs| =>
      YarnUse(st.carriers[cs[i]].yarn, YarnDistance(n, st.carriers[cs[i]].state.attached, st.racking)))
  }

  /** Emit several lines, the first one carrying the original line. */
  function EmitAll(c: Cursor, bodies: seq<Body>): (r: Cursor)
    ensures r.st == c.st.(output := r.st.output)
    ensures |r.st.output| == |c.st.output| + |bodies|
    ensures r.st.output[..|c.st.output|] == c.st.output
    ensures forall j :: |c.st.output| <= j < |r.st.output| ==>
      r.st.output[j] == Line(bodies[j - |c.st.output|], if j == |c.st.output| then c.original else "")
    ensures r.original == if bodies == [] then c.original else ""
    decreases |bodies|
  {
    if bodies == [] then c
    else
      var r := EmitAll(Emit(c, bodies[0]), bodies[1..]);
      assert r.st.output[..|c.st.output|] == c.st.output by {
        assert r.st.output[..|c.st.output| + 1] == c.st.output + [Line(bodies[0], c.original)];
      }
      r
  }

  /** A location moved from needle `n` to needle `t`, keeping its direction; other locations stay. */
  function Moved(l: Loc, n: Needle, t: Needle): Loc {
    if l.needle == n then Loc(t, l.direction) else l
  }

  /** A carrier in action parked or attached at `n` follows the loops to `t`. */
  function Follow(car: Carrier, n: Needle, t: Needle): (r: Carrier)
    ensures r.yarn == car.yarn && r.state.Parked? == car.state.Parked?
  {
    match car.state
    case Parked(p, a) => Carrier(car.yarn, Parked(Moved(p, n, t), Moved(a, n, t)))
    case _ => car
  }

  /** After a split or xfer, every carrier follows the loops of `n` to `t`. */
  function Retarget(carriers: map<string, Carrier>, n: Needle, t: Needle): (r: map<string, Carrier>)
    ensures r.Keys == carriers.Keys
    ensures forall x :: x in r ==> r[x].yarn == carriers[x].yarn && r[x].state.Parked? == carriers[x].state.Parked?
    ensures forall x :: x in r && !carriers[x].state.Parked? ==> r[x] == carriers[x]
    ensures forall x :: x in r && carriers[x].state.Parked? && carriers[x].state.parked.needle == n ==>
      r[x].state.parked == Loc(t, carriers[x].state.parked.direction)
    ensures forall x :: x in r && carriers[x].state.Parked? && carriers[x].state.parked.needle != n ==>
      r[x].state.parked == carriers[x].state.parked
    ensures forall x :: x in r && carriers[x].state.Parked? && carriers[x].state.attached.needle == n ==>
      r[x].state.attached == Loc(t, carriers[x].state.attached.direction)
    ensures forall x :: x in r && carriers[x].state.Parked? && carriers[x].state.attached.needle != n ==>
      r[x].state.attached == carriers[x].state.attached
  {
    map x | x in carriers :: Follow(carriers[x], n, t)
  }

  /** The loop table after a split or xfer from `n` to `t` with `count` yarns. */
  function SplitLoops(loops: map<LoopKey, nat>, n: Needle, t: Needle, count: nat): map<LoopKey, nat>
    requires At(n) in loops
  {
    var moved := loops[At(t) := if At(t) in loops then loops[At(t)] + loops[At(n)] else loops[At(n)]];
    if count == 0 then moved - {At(n)} else moved[At(n) := count]
  }

  /** Write the instruction and update the loop table, for the operation after decay. */
  function Form(c: Cursor, op: string, o: Operands, yarns: seq<YarnUse>): (r: Cursor)
    requires op == "split" ==> At(o.needle) in c.st.loops && o.target.Some?
    ensures r.st.racking == c.st.racking
    ensures r.st.carriers.Keys == c.st.carriers.Keys
    ensures forall x :: x in r.st.carriers ==> r.st.carriers[x].state.Parked? == c.st.carriers[x].state.Parked?
  {
    var d, n := o.direction, o.needle;
    if op == "miss" then
      EmitAll(c, seq(|yarns|, i requires 0 <= i < |yarns| => MissAt(d, n, yarns[i].yarn)))
    else if op == "tuck" then
      if yarns == [] then Emit(c, AmissIgnored)
      else
        var r := Emit(c, TuckAt(d, n, yarns));
        r.(st := r.st.(loops := c.st.loops[At(n) := if At(n) in c.st.loops then c.st.loops[At(n)] + |yarns| else |yarns|]))
    else if op == "knit" then
      if yarns == [] then
        var r := Emit(c, DropAt(n));
        r.(st := r.st.(loops := c.st.loops - {Undefined(n.bed)}))
      else
        var r := Emit(c, KnitAt(d, n, yarns));
        r.(st := r.st.(loops := c.st.loops[Undefined(n.bed) := |yarns|]))
    else if op == "split" then
      var t := o.target.value;
      var r := Emit(c, if yarns == [] then XferAt(n, t) else SplitAt(d, n, yarns));
      r.(st := r.st.(loops := SplitLoops(c.st.loops, n, t, |yarns|), carriers := Retarget(c.st.carriers, n, t)))
    else c
  }

  /** Finally every listed carrier is parked at the needle, and attached there unless the operation is a miss. */
  function Park(carriers: map<string, Carrier>, cs: seq<string>, o: Operands, miss: bool): (r: map<string, Carrier>)
    requires AllParked(carriers, cs)
  {
    map x | x in carriers ::
      if x in cs then
        Carrier(carriers[x].yarn, Parked(Loc(o.needle, o.direction), if miss then carriers[x].state.attached else Loc(o.needle, o.direction)))
      else carriers[x]
  }

  /** `miss`, `tuck`, `knit` and `split` (synonyms already resolved). */
  function Work(c: Cursor, op: string, args: seq<string>, expectNoCarriers: bool): Result<Cursor> {
    var o :- ReadOperands(op, args, expectNoCarriers);
    Perform(c, op, o)
  }

  /** The work on read operands: bring the carriers to the needle, form the stitch, park the carriers. */
  function Perform(c: Cursor, op: string, o: Operands): Result<Cursor>
    requires op == "split" ==> o.target.Some?
  {
    var ready :- SetUpAll(c, o.carriers, Before(o));
    var form := Decayed(op, o.needle, ready.st.loops);
    var yarns := YarnUses(ready.st, o.carriers, o.needle);
    var formed := Form(ready, form, o, yarns);
    Success(formed.(st := formed.st.(carriers := Park(formed.st.carriers, o.carriers, o, form == "miss"))))
  }

  // ---------------------------------------------------------------- one line

  /** `[+-]?\d+` */
  predicate IsInteger(s: string) {
    if |s| > 0 && (s[0] == '+' || s[0] == '-') then IsDecimal(s[1..]) else IsDecimal(s)
  }

  /** `[+]?\d+` */
  predicate IsCount(s: string) {
    if |s| > 0 && s[0] == '+' then IsDecimal(s[1..]) else IsDecimal(s)
  }

  /** The operation of a non-blank line. */
  function Dispatch(c: Cursor, req: Request): Result<Cursor> {
    var op, args := req.op, req.args;
    if op == "in" || op == "inhook" then
      if args == [] then Failure("Can't bring in no carriers") else BringInAll(c, args)
    else if op == "releasehook" then Success(c)
    else if op == "out" || op == "outhook" then
      if args == [] then Failure("Can't bring out no carriers") else TakeOutAll(c, args)
    else if op == "rack" then RackLine(c, args)
    else if op == "stitch" then
      if |args| != 2 then Failure("stitch takes two arguments.")
      else if !IsInteger(args[0]) || !IsInteger(args[1]) then Failure("stitch arguments must be integers.")
      else Success(c)
    else if op == "x-presser-mode" || op == "x-speed-number" then Success(c)
    else if op == "x-stitch-number" then
      if |args| != 1 then Failure("x-stitch-number takes one argument.")
      else if !IsCount(args[0]) then Failure("x-stitch-number argument must be non-negative integer.")
      else Success(c)
    else if op == "miss" || op == "tuck" || op == "knit" || op == "split" then Work(c, op, args, req.expectNoCarriers)
    else if op == "pause" then Success(c)
    else if StartsWith(op, "x-") then Success(c)
    else Failure("unsupported operation '" + op + "'.")
  }

  /** The code part of a line: everything before the first `;`. */
  function CodeOf(text: string): string {
    text[..FindChar(text, ';')]
  }

  /** One pass of the per-line loop: the new state, or the message of the fatal error. */
  function LineStep(st: LState, text: string): Result<LState> {
    var tokens := Tokens(CodeOf(text), IsSpace);
    var c := Cursor(st, text);
    if tokens == [] then
      Success(if FindChar(text, ';') < |text| then Emit(c, CommentLine).st else st)
    else
      var r :- Dispatch(c, Synonym(tokens[0], tokens[1..]));
      Success(r.st)
  }
}
