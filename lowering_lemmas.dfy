/**
 * Knitout to formal knitout (`k2f.mjs`): what the lowering pass guarantees.
 *
 * The first part proves the invariant behind the `in` backpatch: every pending carrier's output
 * slot still holds its own placeholder, so the backpatch always overwrites exactly that line.
 * The rest states the rules of the carrier state machine, the miss walk, synonyms and decay, the
 * loop table, parking and racking, and the checks done before the first instruction.
 */
module LoweringLemmas {
  import opened Results
  import opened Text
  import opened FormalSyntax
  import opened LoweringState
  import opened LoweringSpec
  import opened LoweringMain

  // ---------------------------------------------------------------- the placeholder invariant

  /** Every pending carrier points at an existing output line, and that line is its own placeholder. */
  ghost predicate Slotted(st: LState) {
    forall cn :: cn in st.carriers && st.carriers[cn].state.Pending? ==>
      && st.carriers[cn].state.outputIndex < |st.output|
      && st.output[st.carriers[cn].state.outputIndex].body == Placeholder(cn)
  }

  /** `b` extends the output of `a` and has no pending carrier that was not pending, at the same slot, in `a`. */
  ghost predicate Keeps(a: LState, b: LState) {
    && |a.output| <= |b.output|
    && b.output[..|a.output|] == a.output
    && forall cn :: cn in b.carriers && b.carriers[cn].state.Pending? ==>
         cn in a.carriers && a.carriers[cn].state == b.carriers[cn].state
  }

  lemma KeepsSlotted(a: LState, b: LState)
    requires Slotted(a) && Keeps(a, b)
    ensures Slotted(b)
  {
    forall cn | cn in b.carriers && b.carriers[cn].state.Pending?
      ensures b.carriers[cn].state.outputIndex < |b.output|
      ensures b.output[b.carriers[cn].state.outputIndex].body == Placeholder(cn)
    {
      var k := b.carriers[cn].state.outputIndex;
      assert b.output[k] == b.output[..|a.output|][k];
    }
  }

  lemma KeepsTransitive(a: LState, b: LState, c: LState)
    requires Keeps(a, b) && Keeps(b, c)
    ensures Keeps(a, c)
  {
    assert c.output[..|a.output|] == c.output[..|b.output|][..|a.output|];
  }

  /** A pass that starts from the numbered carriers has no pending carrier. */
  lemma InitialSlotted(names: seq<string>)
    requires Ordered(names)
    ensures Slotted(LState(Table(names), map[], 0, []))
  {
  }

  lemma EmitKeeps(c: Cursor, b: Body)
    ensures Keeps(c.st, Emit(c, b).st)
  {
    assert Emit(c, b).st.output[..|c.st.output|] == c.st.output;
  }

  lemma {:induction false} BringInAllSlotted(c: Cursor, cs: seq<string>)
    requires Slotted(c.st) && BringInAll(c, cs).Success?
    ensures Slotted(BringInAll(c, cs).value.st)
    decreases |cs|
  {
    if cs != [] {
      var next := BringIn(c, cs[0]).value;
      var cn := cs[0];
      forall x | x in next.st.carriers && next.st.carriers[x].state.Pending?
        ensures next.st.carriers[x].state.outputIndex < |next.st.output|
        ensures next.st.output[next.st.carriers[x].state.outputIndex].body == Placeholder(x)
      {
        if x != cn {
          var k := next.st.carriers[x].state.outputIndex;
          assert next.st.output[k] == c.st.output[k];
        }
      }
      BringInAllSlotted(next, cs[1..]);
    }
  }

  lemma {:induction false} TakeOutAllKeeps(c: Cursor, cs: seq<string>)
    requires TakeOutAll(c, cs).Success?
    ensures Keeps(c.st, TakeOutAll(c, cs).value.st)
    decreases |cs|
  {
    if cs != [] {
      var next := TakeOut(c, cs[0]).value;
      EmitKeeps(c, next.st.output[|c.st.output|].body);
      TakeOutAllKeeps(next, cs[1..]);
      KeepsTransitive(c.st, next.st, TakeOutAll(c, cs).value.st);
    }
  }

  lemma RackLineKeeps(c: Cursor, args: seq<string>)
    requires RackLine(c, args).Success?
    ensures Keeps(c.st, RackLine(c, args).value.st)
  {
    var r := RackLine(c, args).value;
    if ReadRacking(args[0]).value == c.st.racking {
      EmitKeeps(c, RackNotNeeded);
    }
  }

  /**
   * The backpatch of a pending carrier: its slot exists and holds its placeholder, and setting it
   * up overwrites exactly that line with the `in` and parks and attaches the carrier at `before`.
   */
  lemma PendingSlot(c: Cursor, cn: string, before: Loc)
    requires Slotted(c.st)
    requires cn in c.st.carriers && c.st.carriers[cn].state.Pending?
    ensures var car := c.st.carriers[cn];
      var index := car.state.outputIndex;
      && index < |c.st.output| && c.st.output[index].body == Placeholder(cn)
      && SetUp(c, cn, before) == Success(Cursor(
           c.st.(carriers := c.st.carriers[cn := Carrier(car.yarn, Parked(before, before))],
                 output := c.st.output[index := InLine(before, car.yarn, car.state.original, c.st.racking)]),
           c.original))
  {
  }

  lemma SetUpSlotted(c: Cursor, cn: string, before: Loc)
    requires Slotted(c.st) && SetUp(c, cn, before).Success?
    ensures Slotted(SetUp(c, cn, before).value.st)
  {
    var r := SetUp(c, cn, before).value;
    var car := c.st.carriers[cn];
    if car.state.Pending? {
      PendingSlot(c, cn, before);
      var index := car.state.outputIndex;
      forall x | x in r.st.carriers && r.st.carriers[x].state.Pending?
        ensures r.st.carriers[x].state.outputIndex < |r.st.output|
        ensures r.st.output[r.st.carriers[x].state.outputIndex].body == Placeholder(x)
      {
        var k := r.st.carriers[x].state.outputIndex;
        assert x != cn && c.st.carriers[x] == r.st.carriers[x];
        assert k != index by {
          assert c.st.output[k].body == Placeholder(x);
        }
      }
    } else {
      HalfIsOdd(before, c.st.racking);
      WalkFollowsPath(c, cn, Half(before, c.st.racking));
      assert Keeps(c.st, r.st) by {
        var path := WalkPath(car.state.parked, Half(before, c.st.racking), c.st.racking);
        assert r.st.output[..|c.st.output|] == c.st.output;
      }
      KeepsSlotted(c.st, r.st);
    }
  }

  lemma {:induction false} SetUpAllSlotted(c: Cursor, cs: seq<string>, before: Loc)
    requires Slotted(c.st) && SetUpAll(c, cs, before).Success?
    ensures Slotted(SetUpAll(c, cs, before).value.st)
    decreases |cs|
  {
    if cs != [] {
      SetUpSlotted(c, cs[0], before);
      SetUpAllSlotted(SetUp(c, cs[0], before).value, cs[1..], before);
    }
  }

  lemma FormKeeps(c: Cursor, op: string, o: Operands, yarns: seq<YarnUse>)
    requires op == "split" ==> At(o.needle) in c.st.loops && o.target.Some?
    ensures Keeps(c.st, Form(c, op, o, yarns).st)
  {
    var r := Form(c, op, o, yarns);
    if op == "miss" {
      assert Keeps(c.st, r.st);
    } else if op == "tuck" || op == "knit" || op == "split" {
      assert r.st.output[..|c.st.output|] == c.st.output;
    }
  }

  lemma ParkKeeps(st: LState, cs: seq<string>, o: Operands, miss: bool)
    requires AllParked(st.carriers, cs)
    ensures Keeps(st, st.(carriers := Park(st.carriers, cs, o, miss)))
  {
  }

  lemma WorkSlotted(c: Cursor, op: string, args: seq<string>, expectNoCarriers: bool)
    requires Slotted(c.st) && Work(c, op, args, expectNoCarriers).Success?
    ensures Slotted(Work(c, op, args, expectNoCarriers).value.st)
  {
    var o := ReadOperands(op, args, expectNoCarriers).value;
    var ready := SetUpAll(c, o.carriers, Before(o)).value;
    SetUpAllSlotted(c, o.carriers, Before(o));
    var form := Decayed(op, o.needle, ready.st.loops);
    var yarns := YarnUses(ready.st, o.carriers, o.needle);
    var formed := Form(ready, form, o, yarns);
    FormKeeps(ready, form, o, yarns);
    ParkKeeps(formed.st, o.carriers, o, form == "miss");
    KeepsTransitive(ready.st, formed.st, Work(c, op, args, expectNoCarriers).value.st);
    KeepsSlotted(ready.st, Work(c, op, args, expectNoCarriers).value.st);
  }

  lemma DispatchSlotted(c: Cursor, req: Request)
    requires Slotted(c.st) && Dispatch(c, req).Success?
    ensures Slotted(Dispatch(c, req).value.st)
  {
    var op, args := req.op, req.args;
    var r := Dispatch(c, req).value;
    if op == "in" || op == "inhook" {
      BringInAllSlotted(c, args);
    } else if op == "releasehook" {
    } else if op == "out" || op == "outhook" {
      TakeOutAllKeeps(c, args);
      KeepsSlotted(c.st, r.st);
    } else if op == "rack" {
      RackLineKeeps(c, args);
      KeepsSlotted(c.st, r.st);
    } else if op == "miss" || op == "tuck" || op == "knit" || op == "split" {
      WorkSlotted(c, op, args, req.expectNoCarriers);
    }
  }

  /** Translating a line keeps every pending carrier's placeholder in place. */
  lemma LineStepSlotted(st: LState, text: string)
    requires Slotted(st) && LineStep(st, text).Success?
    ensures Slotted(LineStep(st, text).value)
  {
    var tokens := Tokens(LoweringSpec.CodeOf(text), IsSpace);
    if tokens == [] {
      EmitKeeps(Cursor(st, text), CommentLine);
      KeepsSlotted(st, LineStep(st, text).value);
    } else {
      DispatchSlotted(Cursor(st, text), Synonym(tokens[0], tokens[1..]));
    }
  }

  /** The invariant holds after every line of a translation. */
  lemma {:induction false} TranslateSlotted(st: LState, lines: seq<string>, i: nat)
    requires i <= |lines| && Slotted(st)
    requires Translate(st, lines, i).Finished?
    ensures Slotted(Translate(st, lines, i).st)
    decreases |lines| - i
  {
    if i < |lines| {
      LineStepSlotted(st, lines[i]);
      TranslateSlotted(LineStep(st, lines[i]).value, lines, i + 1);
    }
  }

  // ---------------------------------------------------------------- in and out

  /** `in` of one carrier fails exactly for an unnamed, parked or pending carrier; otherwise it marks it pending at the next slot. */
  lemma BringInRule(c: Cursor, cn: string)
    ensures BringIn(c, cn).Failure? <==>
      cn !in c.st.carriers || c.st.carriers[cn].state.Parked? || c.st.carriers[cn].state.Pending?
    ensures BringIn(c, cn).Success? ==>
      var r := BringIn(c, cn).value;
      && r.st.carriers == c.st.carriers[cn := Carrier(c.st.carriers[cn].yarn, Pending(|c.st.output|, c.original))]
      && r.st.output == c.st.output + [Line(Placeholder(cn), c.original)]
      && r.st.loops == c.st.loops && r.st.racking == c.st.racking
  {
  }

  /** `out` of one carrier fails unless it is parked; it writes the `out` one needle past the attachment and takes the carrier out. */
  lemma TakeOutRule(c: Cursor, cn: string)
    ensures TakeOut(c, cn).Success? <==> cn in c.st.carriers && c.st.carriers[cn].state.Parked?
    ensures TakeOut(c, cn).Success? ==>
      var car := c.st.carriers[cn];
      var a := car.state.attached;
      var r := TakeOut(c, cn).value;
      && r.st.output == c.st.output + [Line(OutAt(a.direction, Needle(a.needle.bed, a.needle.index + (if a.direction == "+" then 1 else -1)), car.yarn), c.original)]
      && r.st.carriers == c.st.carriers[cn := Carrier(car.yarn, Absent)]
      && r.st.loops == c.st.loops && r.st.racking == c.st.racking
  {
  }

  /** A whole `in` line succeeds only if it names at least one carrier, and then every named carrier is pending. */
  lemma {:induction false} BringInAllPending(c: Cursor, cs: seq<string>)
    requires BringInAll(c, cs).Success?
    ensures var r := BringInAll(c, cs).value;
      && |r.st.output| == |c.st.output| + |cs|
      && forall x :: x in cs ==> x in r.st.carriers && r.st.carriers[x].state.Pending?
    decreases |cs|
  {
    if cs != [] {
      var next := BringIn(c, cs[0]).value;
      BringInAllPending(next, cs[1..]);
      BringInAllKeepsPending(next, cs[1..], cs[0]);
    }
  }

  lemma {:induction false} BringInAllKeepsPending(c: Cursor, cs: seq<string>, x: string)
    requires BringInAll(c, cs).Success? && x in c.st.carriers && c.st.carriers[x].state.Pending?
    ensures x in BringInAll(c, cs).value.st.carriers && BringInAll(c, cs).value.st.carriers[x].state.Pending?
    decreases |cs|
  {
    if cs != [] {
      BringInAllKeepsPending(BringIn(c, cs[0]).value, cs[1..], x);
    }
  }

  // ---------------------------------------------------------------- the miss walk

  /**
   * The walk writes `|target - current|` misses (half positions are doubled), each one needle
   * step further in the one direction of the target.
   */
  lemma WalkMisses(c: Cursor, cn: string, target: int)
    requires cn in c.st.carriers && c.st.carriers[cn].state.Parked?
    requires target % 2 == 1
    ensures var car := c.st.carriers[cn];
      var start := Half(car.state.parked, c.st.racking);
      var r := Walk(c, cn, target);
      && |r.st.output| == |c.st.output| + Dist(start, target) / 2
      && r.st.output[..|c.st.output|] == c.st.output
      && (forall j :: |c.st.output| <= j < |r.st.output| ==>
            && r.st.output[j].body.MissAt?
            && r.st.output[j].body.direction == (if start < target then "+" else "-")
            && r.st.output[j].body.yarn == car.yarn)
  {
    WalkFollowsPath(c, cn, target);
    var r := Walk(c, cn, target);
    assert r.st.output[..|c.st.output|] == c.st.output;
  }

  /** The walk leaves the carrier parked at the target, with its attachment unchanged. */
  lemma WalkArrives(c: Cursor, cn: string, target: int)
    requires cn in c.st.carriers && c.st.carriers[cn].state.Parked?
    requires target % 2 == 1
    ensures var car := c.st.carriers[cn];
      var r := Walk(c, cn, target);
      && cn in r.st.carriers && r.st.carriers[cn].state.Parked?
      && Half(r.st.carriers[cn].state.parked, r.st.racking) == target
      && r.st.carriers[cn].state.attached == car.state.attached
  {
    var p := c.st.carriers[cn].state.parked;
    var path := WalkPath(p, target, c.st.racking);
    WalkFollowsPath(c, cn, target);
    HalfIsOdd(p, c.st.racking);
    if path != [] {
      assert Half(path[|path| - 1], c.st.racking) == target;
    }
  }

  /** Each miss of a walk is exactly one needle step (two half positions) past the previous position. */
  lemma WalkSteps(p: Loc, target: int, racking: int, i: nat)
    requires target % 2 == 1
    requires 0 < i < |WalkPath(p, target, racking)|
    ensures var path := WalkPath(p, target, racking);
      Dist(Half(path[i - 1], racking), Half(path[i], racking)) == 2
  {
  }

  // ---------------------------------------------------------------- synonyms, checks and decay

  /** `amiss`, `drop` and `xfer` take no carriers: with a carrier listed, the line is fatal. */
  lemma SynonymsTakeNoCarriers(op: string, args: seq<string>)
    requires op == "amiss" || op == "drop" || op == "xfer"
    ensures var req := Synonym(op, args);
      && req.expectNoCarriers && req.args == ["+"] + args
      && req.op == (if op == "amiss" then "tuck" else if op == "drop" then "knit" else "split")
      && (ReadOperands(req.op, req.args, true).Success? ==> ReadOperands(req.op, req.args, true).value.carriers == [])
  {
  }

  /** A `miss` that names no carrier is fatal. */
  lemma MissNeedsCarriers(args: seq<string>, expectNoCarriers: bool)
    requires ReadOperands("miss", args, expectNoCarriers).Success?
    ensures ReadOperands("miss", args, expectNoCarriers).value.carriers != []
  {
  }

  /** Setting up carriers never changes the loop table or the racking. */
  lemma {:induction false} SetUpAllKeepsTables(c: Cursor, cs: seq<string>, before: Loc)
    requires SetUpAll(c, cs, before).Success?
    ensures SetUpAll(c, cs, before).value.st.loops == c.st.loops
    ensures SetUpAll(c, cs, before).value.st.racking == c.st.racking
  {
  }

  /** A `knit` on a needle the loop table does not hold is exactly a `tuck`. */
  lemma KnitDecays(c: Cursor, args: seq<string>, expectNoCarriers: bool)
    requires ReadOperands("knit", args, expectNoCarriers).Success?
    requires At(ReadOperands("knit", args, expectNoCarriers).value.needle) !in c.st.loops
    ensures Work(c, "knit", args, expectNoCarriers) == Work(c, "tuck", args, expectNoCarriers)
  {
    var o := ReadOperands("knit", args, expectNoCarriers).value;
    assert ReadOperands("tuck", args, expectNoCarriers) == Success(o);
  }

  /** A `split` on a needle the loop table does not hold is a `tuck` of the same carriers, without the target. */
  lemma SplitDecays(c: Cursor, args: seq<string>, expectNoCarriers: bool)
    requires ReadOperands("split", args, expectNoCarriers).Success?
    requires At(ReadOperands("split", args, expectNoCarriers).value.needle) !in c.st.loops
    ensures Work(c, "split", args, expectNoCarriers) == Work(c, "tuck", args[..2] + args[3..], expectNoCarriers)
  {
    var o := ReadOperands("split", args, expectNoCarriers).value;
    SplitReadsAsTuck(args, expectNoCarriers);
    assert Work(c, "tuck", args[..2] + args[3..], expectNoCarriers) == Perform(c, "tuck", o.(target := None));
    SplitPerformsTuck(c, o);
  }

  lemma SplitPerformsTuck(c: Cursor, o: Operands)
    requires o.target.Some? && At(o.needle) !in c.st.loops
    ensures Perform(c, "split", o) == Perform(c, "tuck", o.(target := None))
  {
    var o' := o.(target := None);
    assert Before(o') == Before(o);
    if SetUpAll(c, o.carriers, Before(o)).Success? {
      var ready := SetUpAll(c, o.carriers, Before(o)).value;
      SetUpAllKeepsTables(c, o.carriers, Before(o));
      assert Decayed("split", o.needle, ready.st.loops) == "tuck";
      var yarns := YarnUses(ready.st, o.carriers, o.needle);
      assert Form(ready, "tuck", o, yarns) == Form(ready, "tuck", o', yarns);
    }
  }

  /** The operands of a `split` read as those of a `tuck` once its target is dropped from the arguments. */
  lemma SplitReadsAsTuck(args: seq<string>, expectNoCarriers: bool)
    requires ReadOperands("split", args, expectNoCarriers).Success?
    ensures var o := ReadOperands("split", args, expectNoCarriers).value;
      ReadOperands("tuck", args[..2] + args[3..], expectNoCarriers) == Success(o.(target := None))
  {
    var tuckArgs := args[..2] + args[3..];
    assert tuckArgs[0] == args[0] && tuckArgs[1] == args[1] && tuckArgs[2..] == args[3..];
  }

  /** A `tuck` without carriers (an `amiss`) writes only a comment and changes no table. */
  lemma CarrierlessTuck(c: Cursor, args: seq<string>, expectNoCarriers: bool)
    requires ReadOperands("tuck", args, expectNoCarriers).Success?
    requires ReadOperands("tuck", args, expectNoCarriers).value.carriers == []
    ensures Work(c, "tuck", args, expectNoCarriers) == Success(Emit(c, AmissIgnored))
  {
    var o := ReadOperands("tuck", args, expectNoCarriers).value;
    assert YarnUses(c.st, [], o.needle) == [];
    assert Park(c.st.carriers, [], o, false) == c.st.carriers;
  }

  // ---------------------------------------------------------------- the loop table

  /** `tuck` adds the number of carriers to the needle's entry, creating it when absent. */
  lemma TuckAddsCount(c: Cursor, o: Operands, yarns: seq<YarnUse>)
    requires yarns != []
    ensures var r := Form(c, "tuck", o, yarns);
      && At(o.needle) in r.st.loops
      && r.st.loops[At(o.needle)] == (if At(o.needle) in c.st.loops then c.st.loops[At(o.needle)] else 0) + |yarns|
      && forall k :: k != At(o.needle) ==> (k in r.st.loops <==> k in c.st.loops) && (k in c.st.loops ==> r.st.loops[k] == c.st.loops[k])
  {
  }

  /** `knit` and `drop` only ever write the per-bed key: no needle's own entry changes. */
  lemma KnitKeepsNeedles(c: Cursor, o: Operands, yarns: seq<YarnUse>)
    ensures var r := Form(c, "knit", o, yarns);
      forall n :: (At(n) in r.st.loops <==> At(n) in c.st.loops) && (At(n) in c.st.loops ==> r.st.loops[At(n)] == c.st.loops[At(n)])
  {
  }

  /**
   * `split` adds the needle's count onto the target's entry, then sets the needle's entry to the
   * number of carriers, or deletes it when there are none (an `xfer`).
   */
  lemma SplitMovesCount(c: Cursor, o: Operands, yarns: seq<YarnUse>)
    requires At(o.needle) in c.st.loops && o.target.Some?
    ensures var r := Form(c, "split", o, yarns);
      var n, t := o.needle, o.target.value;
      && (t != n ==> (&& At(t) in r.st.loops
                      && r.st.loops[At(t)] == (if At(t) in c.st.loops then c.st.loops[At(t)] else 0) + c.st.loops[At(n)]))
      && (yarns == [] ==> At(n) !in r.st.loops)
      && (yarns != [] ==> At(n) in r.st.loops && r.st.loops[At(n)] == |yarns|)
      && (forall k :: k != At(n) && k != At(t) ==>
            (k in r.st.loops <==> k in c.st.loops) && (k in r.st.loops ==> r.st.loops[k] == c.st.loops[k]))
  {
  }

  /** `split` moves every parked carrier that is parked or attached at the needle over to the target. */
  lemma SplitRetargets(c: Cursor, o: Operands, yarns: seq<YarnUse>, x: string)
    requires At(o.needle) in c.st.loops && o.target.Some?
    requires x in c.st.carriers && c.st.carriers[x].state.Parked?
    ensures var r := Form(c, "split", o, yarns);
      var s := c.st.carriers[x].state;
      && x in r.st.carriers && r.st.carriers[x].state.Parked?
      && r.st.carriers[x].state.parked == (if s.parked.needle == o.needle then Loc(o.target.value, s.parked.direction) else s.parked)
      && r.st.carriers[x].state.attached == (if s.attached.needle == o.needle then Loc(o.target.value, s.attached.direction) else s.attached)
  {
  }

  // ---------------------------------------------------------------- yarn lengths and parking

  /** The first use of a pending carrier attaches it just before the needle, one needle away: its length is 1. */
  lemma FirstUseLength(o: Operands, racking: int)
    ensures YarnDistance(o.needle, Before(o), racking) == 1
  {
  }

  /** A carrier still pending, or in and attached at `before`, is attached at `before` after any set-up at `before`. */
  predicate AttachedOrPending(st: LState, x: string, before: Loc) {
    x in st.carriers &&
    (st.carriers[x].state.Pending? || (st.carriers[x].state.Parked? && st.carriers[x].state.attached == before))
  }

  lemma SetUpAttachesAt(c: Cursor, cn: string, before: Loc, x: string)
    requires SetUp(c, cn, before).Success? && AttachedOrPending(c.st, x, before)
    ensures AttachedOrPending(SetUp(c, cn, before).value.st, x, before)
  {
    if x == cn && c.st.carriers[cn].state.Parked? {
      HalfIsOdd(before, c.st.racking);
      WalkArrives(c, cn, Half(before, c.st.racking));
    }
  }

  lemma SetUpAllAttachesAt(c: Cursor, cs: seq<string>, before: Loc, x: string)
    requires SetUpAll(c, cs, before).Success? && AttachedOrPending(c.st, x, before)
    ensures AttachedOrPending(SetUpAll(c, cs, before).value.st, x, before)
    decreases |cs|
  {
    if cs != [] {
      SetUpAttachesAt(c, cs[0], before, x);
      SetUpAllAttachesAt(SetUp(c, cs[0], before).value, cs[1..], before, x);
    }
  }

  /**
   * A carrier pending when the line starts is brought in just before the needle, so the yarn
   * length the line writes for it is 1.
   */
  lemma PendingFirstUse(c: Cursor, o: Operands, i: nat)
    requires i < |o.carriers| && o.carriers[i] in c.st.carriers && c.st.carriers[o.carriers[i]].state.Pending?
    requires SetUpAll(c, o.carriers, Before(o)).Success?
    ensures var ready := SetUpAll(c, o.carriers, Before(o)).value;
      YarnUses(ready.st, o.carriers, o.needle)[i].length == 1
  {
    var ready := SetUpAll(c, o.carriers, Before(o)).value;
    SetUpAllAttachesAt(c, o.carriers, Before(o), o.carriers[i]);
    FirstUseLength(o, ready.st.racking);
  }

  /** After a successful miss/tuck/knit/split every listed carrier is parked at the needle, and attached there unless the operation was a miss. */
  lemma WorkParks(c: Cursor, op: string, args: seq<string>, expectNoCarriers: bool)
    requires Work(c, op, args, expectNoCarriers).Success?
    ensures var o := ReadOperands(op, args, expectNoCarriers).value;
      var r := Work(c, op, args, expectNoCarriers).value;
      forall x :: x in o.carriers ==>
        && x in r.st.carriers && r.st.carriers[x].state.Parked?
        && r.st.carriers[x].state.parked == Loc(o.needle, o.direction)
        && (op != "miss" ==> r.st.carriers[x].state.attached == Loc(o.needle, o.direction))
  {
    var o := ReadOperands(op, args, expectNoCarriers).value;
    var ready := SetUpAll(c, o.carriers, Before(o)).value;
    var form := Decayed(op, o.needle, ready.st.loops);
    assert op != "miss" ==> form != "miss";
  }

  // ---------------------------------------------------------------- racking

  /**
   * `rack` to the current value writes only a comment; to another whole value it writes one
   * `rack` per unit step and ends at the new value; a fractional value is fatal.
   */
  lemma RackLineRule(c: Cursor, tok: string)
    ensures ReadRacking(tok) == Fractional ==> RackLine(c, [tok]) == Failure("quarter-pitch racking conversion not supported yet")
    ensures ReadRacking(tok) == Whole(c.st.racking) ==> RackLine(c, [tok]) == Success(Emit(c, RackNotNeeded))
    ensures ReadRacking(tok).Whole? && ReadRacking(tok).value != c.st.racking ==>
      && RackLine(c, [tok]).Success?
      && RackLine(c, [tok]).value.st.racking == ReadRacking(tok).value
      && |RackLine(c, [tok]).value.st.output| == |c.st.output| + Dist(c.st.racking, ReadRacking(tok).value)
  {
  }

  /** Whole racking values, with or without a sign or a zero fraction, as `parseFloat` reads them. */
  lemma WholeRackings()
    ensures ReadRacking("2") == Whole(2) && ReadRacking("-1") == Whole(-1) && ReadRacking("+3") == Whole(3)
    ensures ReadRacking("1.0") == Whole(1) && ReadRacking(".0") == Whole(0)
  {
    assert DecimalValue("2") == 2 by { assert "2"[..0] == ""; }
    assert DecimalValue("1") == 1 by { assert "1"[..0] == ""; }
    assert DecimalValue("3") == 3 by { assert "3"[..0] == ""; }
    assert DecimalValue("") == 0;
    assert "-1"[1..] == "1" && "+3"[1..] == "3";
    assert "1.0"[..1] == "1" && "1.0"[2..] == "0";
    assert ".0"[..0] == "" && ".0"[1..] == "0";
  }

  /** A quarter-pitch racking is recognised as fractional; a trailing dot or a letter is not a number. */
  lemma RefusedRackings()
    ensures ReadRacking("0.25") == Fractional && ReadRacking("1.") == NotNumber && ReadRacking("x") == NotNumber
  {
    assert "0.25"[..1] == "0" && "0.25"[2..] == "25" && "25"[0] != '0';
    assert "1."[..1] == "1" && "1."[2..] == "";
    assert FindChar("x", '.') == 1 && !IsDigit('x');
  }

  // ---------------------------------------------------------------- needles

  /** A needle written the knitout way (`f3`, `b-2`) reads back as itself. */
  lemma NeedleRoundTrip(bed: Bed, index: int)
    ensures ReadNeedle(BedText(bed) + IntToString(index)) == Success(KnitoutNeedle(bed, false, index))
  {
    var tok := BedText(bed) + IntToString(index);
    IntRoundTrip(index);
    assert tok[1..] == IntToString(index);
    assert tok[1] != 's' by {
      var s := IntToString(index);
      assert tok[1] == s[0];
      if index >= 0 {
        assert IsDigit(s[0]);
      }
    }
  }

  /** Examples of knitout needles: sliders are recognised, the formal `f.3` form and other beds are not needles here. */
  lemma KnitoutNeedleExamples()
    ensures ReadNeedle("f3") == Success(KnitoutNeedle(Front, false, 3))
    ensures ReadNeedle("bs-2") == Success(KnitoutNeedle(Back, true, -2))
    ensures ReadNeedle("f.3").Failure? && ReadNeedle("x3").Failure? && ReadNeedle("f").Failure?
  {
    assert "f3"[1..] == "3" && DecimalValue("3") == 3 by { assert "3"[..0] == ""; }
    assert "bs-2"[2..] == "-2" && "-2"[1..] == "2" && DecimalValue("2") == 2 by { assert "2"[..0] == ""; }
    assert !IsSignedDecimal("f.3"[1..]) by { assert "f.3"[1..][0] == '.'; }
  }

  // ---------------------------------------------------------------- the file

  /** A file always has a first line: the text is never split into no lines. */
  lemma FirstLineExists(text: string)
    ensures Lower(SplitLines(text)) != Fatal(1, "No first line to check for magic number.")
  {
  }

  /** The first line must be the magic line `;!knitout-<digits>`: otherwise, and only then, the file is refused at line 1. */
  lemma MagicRequired(lines: seq<string>)
    requires |lines| > 0
    ensures Lower(lines) == Fatal(1, "invalid knitout magic string") <==> !IsMagic(lines[0])
  {
    if IsMagic(lines[0]) {
      match ScanHeaders(lines, 1, None)
      case Failure(_) =>
      case Success(h) =>
        if h.carriers.Some? && Ordered(h.carriers.value) {
          var e := Translate(LState(Table(h.carriers.value), map[], 0, []), lines, h.next);
          assert e.StoppedAt? ==> e.index + 1 >= 2;
        }
    }
  }

  /** Every `Gauge` header of an accepted header block is a number greater than zero. */
  lemma {:induction false} HeaderGauges(lines: seq<string>, i: nat, names: Option<seq<string>>, j: nat)
    requires i <= j < |lines| && ScanHeaders(lines, i, names).Success?
    requires j < ScanHeaders(lines, i, names).value.next && IsHeader(lines[j], "Gauge")
    ensures IsGauge(HeaderField(lines[j]).value.1)
    decreases j - i
  {
    var (header, value) := HeaderField(lines[i]).value;
    if j > i {
      var next := if header == "Carriers" then Some(Fields(value, IsSpace)) else names;
      assert ScanHeaders(lines, i, names) == ScanHeaders(lines, i + 1, next);
      HeaderGauges(lines, i + 1, next, j);
    }
  }

  /** A header block with a `Carriers` header, or read after one, gives carrier names. */
  lemma {:induction false} HeaderCarriersFound(lines: seq<string>, i: nat, names: Option<seq<string>>, j: nat)
    requires i <= |lines| && ScanHeaders(lines, i, names).Success?
    requires names.Some? || (i <= j < ScanHeaders(lines, i, names).value.next && IsHeader(lines[j], "Carriers"))
    ensures ScanHeaders(lines, i, names).value.carriers.Some?
    decreases |lines| - i
  {
    if i < |lines| && HeaderField(lines[i]).Some? {
      var (header, value) := HeaderField(lines[i]).value;
      var next := if header == "Carriers" then Some(Fields(value, IsSpace)) else names;
      assert ScanHeaders(lines, i, names) == ScanHeaders(lines, i + 1, next);
      HeaderCarriersFound(lines, i + 1, next, j);
    }
  }

  /** A header block without a `Carriers` header, read before any, gives no carrier names. */
  lemma {:induction false} HeaderCarriersAbsent(lines: seq<string>, i: nat, names: Option<seq<string>>)
    requires i <= |lines| && ScanHeaders(lines, i, names).Success? && names.None?
    requires forall j :: i <= j < ScanHeaders(lines, i, names).value.next ==> !IsHeader(lines[j], "Carriers")
    ensures ScanHeaders(lines, i, names).value.carriers.None?
    decreases |lines| - i
  {
    if i < |lines| && HeaderField(lines[i]).Some? {
      assert !IsHeader(lines[i], "Carriers");
      assert ScanHeaders(lines, i, names) == ScanHeaders(lines, i + 1, names);
      HeaderCarriersAbsent(lines, i + 1, names);
    }
  }

  /** Line `j` is a `Gauge` header whose value is refused, and `message` is that refusal. */
  predicate GaugeRefusedAt(lines: seq<string>, j: nat, message: string) {
    && j < |lines| && IsHeader(lines[j], "Gauge")
    && !IsGauge(HeaderField(lines[j]).value.1) && message == GaugeMessage(HeaderField(lines[j]).value.1)
  }

  /** A header block is refused only for a `Gauge` header that is not a number greater than zero, with that value in the message. */
  lemma {:induction false} HeaderRefusal(lines: seq<string>, i: nat, names: Option<seq<string>>)
    requires i <= |lines|
    requires ScanHeaders(lines, i, names).Failure?
    ensures exists j :: i <= j && GaugeRefusedAt(lines, j, ScanHeaders(lines, i, names).error)
    decreases |lines| - i
  {
    var f := HeaderField(lines[i]).value;
    if f.0 == "Gauge" && !IsGauge(f.1) {
      assert GaugeRefusedAt(lines, i, ScanHeaders(lines, i, names).error);
    } else {
      var next := if f.0 == "Carriers" then Some(Fields(f.1, IsSpace)) else names;
      assert ScanHeaders(lines, i, names) == ScanHeaders(lines, i + 1, next);
      HeaderRefusal(lines, i + 1, next);
      var j :| i + 1 <= j && GaugeRefusedAt(lines, j, ScanHeaders(lines, i + 1, next).error);
      assert i <= j;
    }
  }

  /** `Gauge` values the header accepts: digits, an optional point, digits, not all zeros. */
  lemma GaugeAccepted()
    ensures IsGauge("15") && IsGauge("0.5") && IsGauge("7.")
  {
    assert "0.5"[..1] == "0" && "0.5"[2..] == "5";
    assert "7."[..1] == "7" && "7."[2..] == "";
  }

  /** `Gauge` values the header refuses: zero, a missing integer part, a sign, an exponent. */
  lemma GaugeRefused()
    ensures !IsGauge("0") && !IsGauge("0.00") && !IsGauge(".5") && !IsGauge("-3") && !IsGauge("1e3")
  {
    assert "0.00"[..1] == "0" && "0.00"[2..] == "00";
    assert ".5"[..0] == "";
    assert "-3"[..2] == "-3" && !IsDigit('-');
    assert "1e3"[..3] == "1e3" && !IsDigit('e');
  }

  /** Without a `Carriers` header in the header block the file is refused at the line after it. */
  lemma CarriersRequired(lines: seq<string>)
    requires |lines| > 0 && IsMagic(lines[0])
    requires ScanHeaders(lines, 1, None).Success?
    requires forall j :: 1 <= j < ScanHeaders(lines, 1, None).value.next ==> !IsHeader(lines[j], "Carriers")
    ensures Lower(lines) == Fatal(ScanHeaders(lines, 1, None).value.next + 1, "Carriers header not included but is required.")
  {
    HeaderCarriersAbsent(lines, 1, None);
  }

  /** Ordered names stand for their own values: positive, strictly increasing, so distinct carriers have distinct yarns. */
  lemma {:induction false} OrderedYarns(names: seq<string>, i: nat, j: nat)
    requires Ordered(names) && i < j < |names|
    ensures Follows(names, i) && Follows(names, j) && 0 < DecimalValue(names[i]) < DecimalValue(names[j])
    decreases j - i
  {
    assert Follows(names, j) && Follows(names, i) && Follows(names, j - 1);
    if i + 1 < j {
      OrderedYarns(names, i, j - 1);
    }
  }

  /** Names without leading zeros are used directly as yarn numbers: the yarn prints as the name. */
  lemma NamesAreYarns(names: seq<string>, x: string)
    requires Ordered(names) && x in names && IsCanonical(x)
    ensures x in Table(names) && NatToString(Table(names)[x].yarn) == x && Table(names)[x].state == Absent
  {
    CanonicalRoundTrip(x);
  }

  /** Names out of order make the carrier numbering crash; in order, the body is translated from the numbered carriers. */
  lemma NumberingRule(lines: seq<string>)
    requires |lines| > 0 && IsMagic(lines[0])
    requires ScanHeaders(lines, 1, None).Success? && ScanHeaders(lines, 1, None).value.carriers.Some?
    ensures var h := ScanHeaders(lines, 1, None).value;
      && (!Ordered(h.carriers.value) ==> Lower(lines) == Thrown(RemapCrash))
      && (Ordered(h.carriers.value) ==>
            (Lower(lines).Written? <==> Translate(LState(Table(h.carriers.value), map[], 0, []), lines, h.next).Finished?))
  {
  }

  /** Every backpatch in a translation finds its placeholder: the invariant holds from the start to the end. */
  lemma LowerSlotted(lines: seq<string>)
    requires |lines| > 0 && IsMagic(lines[0])
    requires ScanHeaders(lines, 1, None).Success? && ScanHeaders(lines, 1, None).value.carriers.Some?
    requires Ordered(ScanHeaders(lines, 1, None).value.carriers.value)
    ensures var h := ScanHeaders(lines, 1, None).value;
      var e := Translate(LState(Table(h.carriers.value), map[], 0, []), lines, h.next);
      e.Finished? ==> Slotted(e.st)
  {
    var h := ScanHeaders(lines, 1, None).value;
    InitialSlotted(h.carriers.value);
    var e := Translate(LState(Table(h.carriers.value), map[], 0, []), lines, h.next);
    if e.Finished? {
      TranslateSlotted(LState(Table(h.carriers.value), map[], 0, []), lines, h.next);
    }
  }
}
