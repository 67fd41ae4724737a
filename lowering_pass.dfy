/**
 * Knitout to formal knitout (`k2f.mjs`): the per-line pass over the module-level state.
 *
 * `Lowering` holds the carrier table, the loop table, the racking and the output buffer, and
 * updates them in place line by line. Every method is proved to do what the corresponding
 * function of `LoweringSpec` describes; `ProcessLine` agrees with `LineStep`.
 */
module LoweringPass {
  import opened Results
  import opened Text
  import opened FormalSyntax
  import opened LoweringState
  import opened LoweringSpec

  class Lowering {
    var carriers: map<string, Carrier>
    var loops: map<LoopKey, nat>
    var racking: int
    var output: seq<Line>

    /** The pass state as a value. */
    function State(): LState
      reads this
    {
      LState(carriers, loops, racking, output)
    }

    /** A pass over a file whose header named `carriers`, none of them in yet. */
    constructor(carriers: map<string, Carrier>)
      ensures State() == LState(carriers, map[], 0, [])
    {
      this.carriers := carriers;
      loops := map[];
      racking := 0;
      output := [];
    }

    /** `emit`: append a line, attaching the original text if it is not used up yet. */
    method Write(body: Body, original: string) returns (rest: string)
      modifies this
      ensures Cursor(State(), rest) == Emit(Cursor(old(State()), original), body)
    {
      output := output + [Line(body, original)];
      rest := "";
    }

    /** Emit several lines in order. */
    method WriteAll(bodies: seq<Body>, original: string) returns (rest: string)
      modifies this
      ensures Cursor(State(), rest) == EmitAll(Cursor(old(State()), original), bodies)
    {
      rest := original;
      var i := 0;
      while i < |bodies|
        invariant 0 <= i <= |bodies|
        invariant EmitAll(Cursor(old(State()), original), bodies) == EmitAll(Cursor(State(), rest), bodies[i..])
      {
        assert bodies[i..][1..] == bodies[i + 1..];
        rest := Write(bodies[i], rest);
        i := i + 1;
      }
    }

    // ------------------------------------------------------------ in / out

    /** `in`/`inhook`: mark every listed carrier pending and write its placeholder. */
    method BringInAll(cs: seq<string>, original: string) returns (r: Outcome, rest: string)
      modifies this
      ensures r.Pass? ==> LoweringSpec.BringInAll(Cursor(old(State()), original), cs) == Success(Cursor(State(), rest))
      ensures r.Fail? ==> LoweringSpec.BringInAll(Cursor(old(State()), original), cs) == Failure(r.error)
    {
      rest := original;
      var i := 0;
      while i < |cs|
        invariant 0 <= i <= |cs|
        invariant LoweringSpec.BringInAll(Cursor(old(State()), original), cs) == LoweringSpec.BringInAll(Cursor(State(), rest), cs[i..])
      {
        var cn := cs[i];
        assert cs[i..][0] == cn && cs[i..][1..] == cs[i + 1..];
        if cn !in carriers {
          return Fail(NotNamed(cn)), rest;
        }
        if carriers[cn].state.Parked? {
          return Fail("Can't in '" + cn + "' -- it's already in."), rest;
        }
        if carriers[cn].state.Pending? {
          return Fail("Can't in '" + cn + "' -- it's pending."), rest;
        }
        carriers := carriers[cn := Carrier(carriers[cn].yarn, Pending(|output|, rest))];
        rest := Write(Placeholder(cn), rest);
        i := i + 1;
      }
      r := Pass;
    }

    /** `out`/`outhook`: write an `out` for every listed carrier, which must be in, and take it out. */
    method TakeOutAll(cs: seq<string>, original: string) returns (r: Outcome, rest: string)
      modifies this
      ensures r.Pass? ==> LoweringSpec.TakeOutAll(Cursor(old(State()), original), cs) == Success(Cursor(State(), rest))
      ensures r.Fail? ==> LoweringSpec.TakeOutAll(Cursor(old(State()), original), cs) == Failure(r.error)
    {
      rest := original;
      var i := 0;
      while i < |cs|
        invariant 0 <= i <= |cs|
        invariant LoweringSpec.TakeOutAll(Cursor(old(State()), original), cs) == LoweringSpec.TakeOutAll(Cursor(State(), rest), cs[i..])
      {
        var cn := cs[i];
        assert cs[i..][0] == cn && cs[i..][1..] == cs[i + 1..];
        if cn !in carriers {
          return Fail(NotNamed(cn)), rest;
        }
        var car := carriers[cn];
        match car.state {
          case Parked(_, a) =>
            var n := Needle(a.needle.bed, a.needle.index + (if a.direction == "+" then 1 else -1));
            rest := Write(OutAt(a.direction, n, car.yarn), rest);
            carriers := carriers[cn := Carrier(car.yarn, Absent)];
          case Pending(_, _) =>
            return Fail("Can't out '" + cn + "' -- it's pending, not in."), rest;
          case Absent =>
            return Fail("Can't out '" + cn + "' -- it isn't in."), rest;
        }
        i := i + 1;
      }
      r := Pass;
    }

    // ------------------------------------------------------------ racking

    /** The `while (racking != newRacking)` loop. */
    method RackTo(target: int, original: string) returns (rest: string)
      modifies this
      ensures Cursor(State(), rest) == RackSteps(Cursor(old(State()), original), target)
    {
      rest := original;
      while racking != target
        invariant RackSteps(Cursor(old(State()), original), target) == RackSteps(Cursor(State(), rest), target)
        decreases Dist(racking, target)
      {
        if racking < target {
          racking := racking + 1;
        } else {
          racking := racking - 1;
        }
        rest := Write(RackAt(racking), rest);
      }
    }

    /** `rack` */
    method Rack(args: seq<string>, original: string) returns (r: Outcome, rest: string)
      modifies this
      ensures r.Pass? ==> RackLine(Cursor(old(State()), original), args) == Success(Cursor(State(), rest))
      ensures r.Fail? ==> RackLine(Cursor(old(State()), original), args) == Failure(r.error)
    {
      rest := original;
      if |args| != 1 {
        return Fail("racking takes one argument"), rest;
      }
      match ReadRacking(args[0]) {
        case NotNumber =>
          return Fail("racking must be a number"), rest;
        case Fractional =>
          return Fail("quarter-pitch racking conversion not supported yet"), rest;
        case Whole(v) =>
          if racking == v {
            rest := Write(RackNotNeeded, rest);
          } else {
            rest := RackTo(v, rest);
          }
      }
      r := Pass;
    }

    // ------------------------------------------------------------ setting up carriers

    /** The miss walk: step the parked carrier `cn` towards half-position `target`, one `miss` per step. */
    method WalkCarrier(cn: string, target: int, original: string) returns (rest: string)
      requires cn in carriers && carriers[cn].state.Parked?
      requires target % 2 == 1
      modifies this
      ensures Cursor(State(), rest) == Walk(Cursor(old(State()), original), cn, target)
    {
      rest := original;
      while Half(carriers[cn].state.parked, racking) != target
        invariant cn in carriers && carriers[cn].state.Parked?
        invariant Walk(Cursor(old(State()), original), cn, target) == Walk(Cursor(State(), rest), cn, target)
        decreases Dist(Half(carriers[cn].state.parked, racking), target)
      {
        var here := Half(carriers[cn].state.parked, racking);
        HalfIsOdd(carriers[cn].state.parked, racking);
        WalkUnfold(Cursor(State(), rest), cn, target);
        rest := StepCarrier(cn, here < target, rest);
        assert Half(carriers[cn].state.parked, racking) == if here < target then here + 2 else here - 2;
        assert Dist(Half(carriers[cn].state.parked, racking), target) < Dist(here, target) by {
          OddGap(here, target);
        }
      }
    }

    /** One step of the miss walk: turn at the needle or move to the next one, and write the `miss`. */
    method StepCarrier(cn: string, up: bool, original: string) returns (rest: string)
      requires cn in carriers && carriers[cn].state.Parked?
      modifies this
      ensures Cursor(State(), rest) == WalkStep(Cursor(old(State()), original), cn, up)
      ensures cn in carriers && carriers[cn].state.Parked? && racking == old(racking)
      ensures Half(carriers[cn].state.parked, racking) == Half(old(carriers[cn].state.parked), racking) + (if up then 2 else -2)
    {
      var c := carriers[cn];
      var p := c.state.parked;
      if up {
        if p.direction == "-" {
          p := Loc(p.needle, "+");
        } else {
          p := Loc(Needle(p.needle.bed, p.needle.index + 1), p.direction);
        }
        carriers := carriers[cn := Carrier(c.yarn, Parked(p, c.state.attached))];
        rest := Write(MissAt("+", p.needle, c.yarn), original);
      } else {
        if p.direction == "+" {
          p := Loc(p.needle, "-");
        } else {
          p := Loc(Needle(p.needle.bed, p.needle.index - 1), p.direction);
        }
        carriers := carriers[cn := Carrier(c.yarn, Parked(p, c.state.attached))];
        rest := Write(MissAt("-", p.needle, c.yarn), original);
      }
    }

    /** Make carrier `cn` ready at `before`: backpatch the `in` of a pending carrier, walk a parked one. */
    method SetUp(cn: string, before: Loc, original: string) returns (r: Outcome, rest: string)
      modifies this
      ensures r.Pass? ==> LoweringSpec.SetUp(Cursor(old(State()), original), cn, before) == Success(Cursor(State(), rest))
      ensures r.Fail? ==> LoweringSpec.SetUp(Cursor(old(State()), original), cn, before) == Failure(r.error)
    {
      rest := original;
      if cn !in carriers {
        return Fail(NotNamed(cn)), rest;
      }
      var car := carriers[cn];
      match car.state {
        case Pending(index, note) =>
          // the placeholder slot always exists: see `LoweringLemmas.PendingSlot`
          if index < |output| {
            output := output[index := InLine(before, car.yarn, note, racking)];
          }
          carriers := carriers[cn := Carrier(car.yarn, Parked(before, before))];
        case Parked(_, _) =>
          HalfIsOdd(before, racking);
          rest := WalkCarrier(cn, Half(before, racking), rest);
        case Absent =>
          return Fail("Carrier '" + cn + "' isn't pending or in."), rest;
      }
      r := Pass;
    }

    /** Make every listed carrier ready at `before`, in order, stopping at the first error. */
    method SetUpAll(cs: seq<string>, before: Loc, original: string) returns (r: Outcome, rest: string)
      modifies this
      ensures r.Pass? ==> LoweringSpec.SetUpAll(Cursor(old(State()), original), cs, before) == Success(Cursor(State(), rest))
      ensures r.Fail? ==> LoweringSpec.SetUpAll(Cursor(old(State()), original), cs, before) == Failure(r.error)
    {
      rest := original;
      var i := 0;
      while i < |cs|
        invariant 0 <= i <= |cs|
        invariant LoweringSpec.SetUpAll(Cursor(old(State()), original), cs, before) == LoweringSpec.SetUpAll(Cursor(State(), rest), cs[i..], before)
      {
        ghost var here := Cursor(State(), rest);
        SetUpAllUnfold(here, cs[i..], before);
        assert cs[i..][0] == cs[i] && cs[i..][1..] == cs[i + 1..];
        var step;
        step, rest := SetUp(cs[i], before, rest);
        if step.Fail? {
          return step, rest;
        }
        i := i + 1;
      }
      r := Pass;
    }

    // ------------------------------------------------------------ forming the stitch

    /** The `(yarn,length)` annotations of the listed carriers. */
    method YarnLengths(cs: seq<string>, n: Needle) returns (yarns: seq<YarnUse>)
      requires AllParked(carriers, cs)
      ensures yarns == YarnUses(State(), cs, n)
    {
      yarns := [];
      var i := 0;
      while i < |cs|
        invariant 0 <= i <= |cs|
        invariant |yarns| == i
        invariant forall j :: 0 <= j < i ==> yarns[j] == YarnUses(State(), cs, n)[j]
      {
        var c := carriers[cs[i]];
        yarns := yarns + [YarnUse(c.yarn, YarnDistance(n, c.state.attached, racking))];
        i := i + 1;
      }
    }

    /** Every carrier parked or attached at `n` follows the loops to `t`. */
    method RetargetCarriers(n: Needle, t: Needle)
      modifies this
      ensures State() == old(State()).(carriers := Retarget(old(carriers), n, t))
    {
      var todo := carriers.Keys;
      while todo != {}
        invariant todo <= carriers.Keys && carriers.Keys == old(carriers).Keys
        invariant forall x :: x in carriers ==> carriers[x] == if x in todo then old(carriers)[x] else Follow(old(carriers)[x], n, t)
        invariant loops == old(loops) && racking == old(racking) && output == old(output)
        decreases todo
      {
        var x :| x in todo;
        var c := carriers[x];
        if c.state.Parked? {
          var a := c.state.attached;
          if a.needle == n {
            a := Loc(t, a.direction);
          }
          var p := c.state.parked;
          if p.needle == n {
            p := Loc(t, p.direction);
          }
          carriers := carriers[x := Carrier(c.yarn, Parked(p, a))];
        }
        todo := todo - {x};
      }
    }

    /** Write the instruction and update the loop table, for the operation after decay. */
    method FormStitch(op: string, o: Operands, yarns: seq<YarnUse>, original: string) returns (rest: string)
      requires op == "split" ==> At(o.needle) in loops && o.target.Some?
      modifies this
      ensures Cursor(State(), rest) == Form(Cursor(old(State()), original), op, o, yarns)
    {
      var d, n := o.direction, o.needle;
      rest := original;
      if op == "miss" {
        rest := WriteAll(seq(|yarns|, i requires 0 <= i < |yarns| => MissAt(d, n, yarns[i].yarn)), rest);
      } else if op == "tuck" {
        if yarns == [] {
          rest := Write(AmissIgnored, rest);
        } else {
          rest := Write(TuckAt(d, n, yarns), rest);
          if At(n) !in loops {
            loops := loops[At(n) := |yarns|];
          } else {
            loops := loops[At(n) := loops[At(n)] + |yarns|];
          }
        }
      } else if op == "knit" {
        if yarns == [] {
          rest := Write(DropAt(n), rest);
          loops := loops - {Undefined(n.bed)};
        } else {
          rest := Write(KnitAt(d, n, yarns), rest);
          loops := loops[Undefined(n.bed) := |yarns|];
        }
      } else if op == "split" {
        var t := o.target.value;
        if yarns == [] {
          rest := Write(XferAt(n, t), rest);
        } else {
          rest := Write(SplitAt(d, n, yarns), rest);
        }
        if At(t) !in loops {
          loops := loops[At(t) := loops[At(n)]];
        } else {
          loops := loops[At(t) := loops[At(t)] + loops[At(n)]];
        }
        if yarns == [] {
          loops := loops - {At(n)};
        } else {
          loops := loops[At(n) := |yarns|];
        }
        RetargetCarriers(n, t);
      }
    }

    /** Park every listed carrier at the needle, attaching it there unless the operation is a miss. */
    method ParkCarriers(cs: seq<string>, o: Operands, miss: bool)
      requires AllParked(carriers, cs)
      modifies this
      ensures State() == old(State()).(carriers := Park(old(carriers), cs, o, miss))
    {
      var i := 0;
      while i < |cs|
        invariant 0 <= i <= |cs|
        invariant AllParked(old(carriers), cs)
        invariant carriers == Park(old(carriers), cs[..i], o, miss)
        invariant loops == old(loops) && racking == old(racking) && output == old(output)
      {
        var cn := cs[i];
        var c := carriers[cn];
        var here := Loc(o.needle, o.direction);
        carriers := carriers[cn := Carrier(c.yarn, Parked(here, if miss then c.state.attached else here))];
        assert cs[..i + 1] == cs[..i] + [cn];
        i := i + 1;
      }
      assert cs[..i] == cs;
    }

    /** `miss`, `tuck`, `knit` and `split`, synonyms already resolved. */
    method Work(op: string, args: seq<string>, expectNoCarriers: bool, original: string) returns (r: Outcome, rest: string)
      modifies this
      ensures r.Pass? ==> LoweringSpec.Work(Cursor(old(State()), original), op, args, expectNoCarriers) == Success(Cursor(State(), rest))
      ensures r.Fail? ==> LoweringSpec.Work(Cursor(old(State()), original), op, args, expectNoCarriers) == Failure(r.error)
    {
      rest := original;
      var operands := ReadOperands(op, args, expectNoCarriers);
      if operands.Failure? {
        return Fail(operands.error), rest;
      }
      var o := operands.value;
      r, rest := SetUpAll(o.carriers, Before(o), rest);
      if r.Fail? {
        return;
      }
      var form := Decayed(op, o.needle, loops);
      var yarns := YarnLengths(o.carriers, o.needle);
      rest := FormStitch(form, o, yarns, rest);
      ParkCarriers(o.carriers, o, form == "miss");
    }

    // ------------------------------------------------------------ one line

    /** The operation of a non-blank line. */
    method Dispatch(req: Request, original: string) returns (r: Outcome, rest: string)
      modifies this
      ensures r.Pass? ==> LoweringSpec.Dispatch(Cursor(old(State()), original), req) == Success(Cursor(State(), rest))
      ensures r.Fail? ==> LoweringSpec.Dispatch(Cursor(old(State()), original), req) == Failure(r.error)
    {
      var op, args := req.op, req.args;
      r, rest := Pass, original;
      if op == "in" || op == "inhook" {
        if args == [] {
          r := Fail("Can't bring in no carriers");
        } else {
          r, rest := BringInAll(args, rest);
        }
      } else if op == "releasehook" {
      } else if op == "out" || op == "outhook" {
        if args == [] {
          r := Fail("Can't bring out no carriers");
        } else {
          r, rest := TakeOutAll(args, rest);
        }
      } else if op == "rack" {
        r, rest := Rack(args, rest);
      } else if op == "stitch" {
        if |args| != 2 {
          r := Fail("stitch takes two arguments.");
        } else if !IsInteger(args[0]) || !IsInteger(args[1]) {
          r := Fail("stitch arguments must be integers.");
        }
      } else if op == "x-presser-mode" || op == "x-speed-number" {
      } else if op == "x-stitch-number" {
        if |args| != 1 {
          r := Fail("x-stitch-number takes one argument.");
        } else if !IsCount(args[0]) {
          r := Fail("x-stitch-number argument must be non-negative integer.");
        }
      } else if op == "miss" || op == "tuck" || op == "knit" || op == "split" {
        r, rest := Work(op, args, req.expectNoCarriers, rest);
      } else if op == "pause" {
      } else if StartsWith(op, "x-") {
      } else {
        r := Fail("unsupported operation '" + op + "'.");
      }
    }

    /** The body of the per-line loop: strip the comment, tokenise, resolve synonyms and translate. */
    method ProcessLine(text: string) returns (r: Outcome)
      modifies this
      ensures r.Pass? ==> LineStep(old(State()), text) == Success(State())
      ensures r.Fail? ==> LineStep(old(State()), text) == Failure(r.error)
    {
      var k := FindChar(text, ';');
      var tokens := Tokens(text[..k], IsSpace);
      if tokens == [] {
        if k < |text| {
          var _ := Write(CommentLine, text);
        }
        return Pass;
      }
      var rest;
      r, rest := Dispatch(Synonym(tokens[0], tokens[1..]), text);
    }
  }
}
