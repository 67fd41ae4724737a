/**
 * Formal knitout: the trace validator of `fnitout.mjs`.
 *
 * Instructions are replayed in order against a machine state holding the racking, the loop count
 * of every needle, the column of every yarn carrier in action and the needle each yarn is attached
 * to. Each instruction is checked against a copy of the last committed state; if the checks pass
 * the updated copy is appended to the trace, otherwise one error is recorded and the instruction is
 * skipped.
 */
module FormalTrace {
  import opened Results
  import opened Text
  import opened FormalSyntax

  /** The needle and direction a yarn was last worked at. */
  datatype Attachment = Attachment(needle: Needle, direction: Dir)

  /** A snapshot of the machine. A needle without an entry in `loops` holds no loop. */
  datatype MachineState = MachineState(
    rack: int,
    loops: map<Needle, int>,
    carriers: map<nat, int>,
    attachments: map<nat, Attachment>)

  /** Racking 0, no loops, no carriers in action. */
  const Initial: MachineState := MachineState(0, map[], map[], map[])

  datatype ValidationError = ValidationError(instruction: nat, message: string)

  /** The result of `validate`: the trace of states and the errors. */
  datatype Run = Run(trace: seq<MachineState>, errors: seq<ValidationError>)

  /** Loop counts are positive: a needle with no loop has no entry. */
  ghost predicate Valid(s: MachineState) {
    forall n :: n in s.loops ==> s.loops[n] > 0
  }

  function Opposite(d: Dir): Dir {
    if d == Plus then Minus else Plus
  }

  /**
   * The column a carrier occupies beside needle `n` when travelling in direction `d`: one column
   * further for `+`, and back-bed needles shifted by the racking.
   */
  function PhysicalPos(n: Needle, d: Dir, rack: int): int {
    if n.bed == Front then n.index + (if d == Plus then 1 else 0)
    else n.index + rack + (if d == Plus then 1 else 0)
  }

  /** The ids of a yarn list. */
  function YarnIds(ys: seq<YarnLength>): (ids: seq<nat>)
    ensures |ids| == |ys|
  {
    seq(|ys|, i requires 0 <= i < |ys| => ys[i].yarn)
  }

  // ---------------------------------------------------------------- the checks and updates

  /**
   * The message for the first yarn of `ys` that is not in action or whose carrier is not at
   * column `expected`; nothing when every yarn is ready.
   */
  function CarrierError(carriers: map<nat, int>, ys: seq<nat>, expected: int): (e: Option<string>)
    ensures e.None? <==> forall i :: 0 <= i < |ys| ==> ys[i] in carriers && carriers[ys[i]] == expected
    decreases |ys|
  {
    if ys == [] then None
    else if ys[0] !in carriers then
      Some("Using yarn " + NatToString(ys[0]) + ", but it is not in action.")
    else if carriers[ys[0]] != expected then
      Some("Expected yarn " + NatToString(ys[0]) + " at " + IntToString(expected) + ", but it is at "
           + IntToString(carriers[ys[0]]) + ".")
    else
      var rest := CarrierError(carriers, ys[1..], expected);
      assert rest.None? ==> forall i :: 1 <= i < |ys| ==> ys[1..][i - 1] == ys[i];
      rest
  }

  /** The map after every key of `ks` is set to `v`: `setYarns` and `setAttachments` both do this. */
  function Assigned<K, V>(m: map<K, V>, ks: seq<K>, v: V): (r: map<K, V>)
    ensures r.Keys == m.Keys + set k | k in ks
    ensures forall k :: k in ks ==> r[k] == v
    ensures forall k :: k in m && k !in ks ==> r[k] == m[k]
  {
    map k | k in m.Keys + (set k | k in ks) :: if k in ks then v else m[k]
  }

  function Retarget(a: Attachment, n: Needle, t: Needle): Attachment {
    if a.needle == n then Attachment(t, a.direction) else a
  }

  /** The attachments after every yarn attached at `n` is moved to `t`, keeping its direction. */
  function Retargeted(attachments: map<nat, Attachment>, n: Needle, t: Needle): (r: map<nat, Attachment>)
    ensures r.Keys == attachments.Keys
    ensures n != t ==> forall y :: y in r ==> r[y].needle != n
    ensures forall y :: y in r ==> r[y].direction == attachments[y].direction
    ensures forall y :: y in attachments && attachments[y].needle == n ==> r[y] == Attachment(t, attachments[y].direction)
    ensures forall y :: y in attachments && attachments[y].needle != n ==> r[y] == attachments[y]
  {
    map y | y in attachments :: Retarget(attachments[y], n, t)
  }

  /** The loop counts after the loops of `n` are added onto `t` and `n` is cleared. */
  function MovedLoops(loops: map<Needle, int>, n: Needle, t: Needle): (r: map<Needle, int>)
    ensures n !in loops ==> r == loops
    ensures n in loops && n != t ==>
      n !in r && t in r && r[t] == (if t in loops then loops[t] else 0) + loops[n]
    ensures forall m :: m != n && m != t ==> (m in r <==> m in loops) && (m in r ==> r[m] == loops[m])
  {
    if n in loops then
      loops[t := if t in loops then loops[t] + loops[n] else loops[n]] - {n}
    else loops
  }

  /** Split and xfer need the two needles on opposite beds and facing each other at the racking. */
  function TargetError(n: Needle, t: Needle, rack: int): Option<string> {
    if n.bed == t.bed then
      Some("Needle '" + NeedleText(n) + "' and target '" + NeedleText(t) + "' are not on opposite beds.")
    else if PhysicalPos(n, Minus, rack) != PhysicalPos(t, Minus, rack) then
      Some("Needle '" + NeedleText(n) + "' and target '" + NeedleText(t) + "' are not aligned at racking "
           + IntToString(rack) + ".")
    else None
  }

  /** The state after a yarn-using operation forms `count` new loops at `n`: attach and move the yarns. */
  function Worked(s: MachineState, loops: map<Needle, int>, attachments: map<nat, Attachment>,
                  d: Dir, n: Needle, ys: seq<YarnLength>): MachineState
  {
    s.(loops := loops,
       attachments := Assigned(attachments, YarnIds(ys), Attachment(n, d)),
       carriers := Assigned(s.carriers, YarnIds(ys), PhysicalPos(n, d, s.rack)))
  }

  /** One instruction applied to a state: the next state, or the reason it is refused. */
  function Step(s: MachineState, op: Op): Result<MachineState> {
    match op
    case Tuck(d, n, _, ys) => TuckStep(s, d, n, ys)
    case Knit(d, n, _, ys) => KnitStep(s, d, n, ys)
    case Drop(n) => DropStep(s, n)
    case Split(d, n, t, _, ys) => SplitStep(s, d, n, t, ys)
    case Miss(d, n, y) => MissStep(s, d, n, y)
    case In(d, n, y) => InStep(s, d, n, y)
    case Out(d, n, y) => OutStep(s, d, n, y)
    case Xfer(n, t) => XferStep(s, n, t)
    case Rack(r) => RackStep(s, r)
  }

  /** `tuck`: the yarns must stand before the needle; a loop is added to it when yarns are used. */
  function TuckStep(s: MachineState, d: Dir, n: Needle, ys: seq<YarnLength>): Result<MachineState> {
    var e := CarrierError(s.carriers, YarnIds(ys), PhysicalPos(n, Opposite(d), s.rack));
    if e.Some? then Failure(e.value)
    else
      var loops := if |ys| > 0 then s.loops[n := if n in s.loops then s.loops[n] + 1 else |ys|] else s.loops;
      Success(Worked(s, loops, s.attachments, d, n, ys))
  }

  /** `knit`: the yarns must stand before the needle; its old loops are replaced by the new ones. */
  function KnitStep(s: MachineState, d: Dir, n: Needle, ys: seq<YarnLength>): Result<MachineState> {
    var e := CarrierError(s.carriers, YarnIds(ys), PhysicalPos(n, Opposite(d), s.rack));
    if e.Some? then Failure(e.value)
    else
      var loops := if |ys| > 0 then (s.loops - {n})[n := |ys|] else s.loops - {n};
      Success(Worked(s, loops, s.attachments, d, n, ys))
  }

  /** `drop`: the needle must hold loops, and loses them. */
  function DropStep(s: MachineState, n: Needle): Result<MachineState> {
    if n !in s.loops || s.loops[n] <= 0 then
      Failure("Can't drop " + NeedleText(n) + " because it contains no loops.")
    else Success(s.(loops := s.loops - {n}))
  }

  /** `split`: the target must face the needle; its loops move there and new loops form on it. */
  function SplitStep(s: MachineState, d: Dir, n: Needle, t: Needle, ys: seq<YarnLength>): Result<MachineState> {
    var te := TargetError(n, t, s.rack);
    if te.Some? then Failure(te.value)
    else
      var e := CarrierError(s.carriers, YarnIds(ys), PhysicalPos(n, Opposite(d), s.rack));
      if e.Some? then Failure(e.value)
      else
        var moved := MovedLoops(s.loops, n, t);
        var loops := if |ys| > 0 then moved[n := |ys|] else moved;
        Success(Worked(s, loops, Retargeted(s.attachments, n, t), d, n, ys))
  }

  /** `miss`: the yarn must stand before the needle, and moves past it. */
  function MissStep(s: MachineState, d: Dir, n: Needle, y: nat): Result<MachineState> {
    var e := CarrierError(s.carriers, [y], PhysicalPos(n, Opposite(d), s.rack));
    if e.Some? then Failure(e.value)
    else Success(s.(carriers := Assigned(s.carriers, [y], PhysicalPos(n, d, s.rack))))
  }

  /** `in`: the yarn must be out, and comes in past the needle. */
  function InStep(s: MachineState, d: Dir, n: Needle, y: nat): Result<MachineState> {
    if y in s.carriers then Failure("Can't bring in yarn " + NatToString(y) + " because it is already in.")
    else Success(s.(carriers := Assigned(s.carriers, [y], PhysicalPos(n, d, s.rack))))
  }

  /** `out`: the yarn must stand past the needle, and leaves with its attachment. */
  function OutStep(s: MachineState, d: Dir, n: Needle, y: nat): Result<MachineState> {
    var e := CarrierError(s.carriers, [y], PhysicalPos(n, d, s.rack));
    if e.Some? then Failure(e.value)
    else Success(s.(carriers := s.carriers - {y}, attachments := s.attachments - {y}))
  }

  /** `xfer`: the target must face the needle; the loops and their attachments move there. */
  function XferStep(s: MachineState, n: Needle, t: Needle): Result<MachineState> {
    var te := TargetError(n, t, s.rack);
    if te.Some? then Failure(te.value)
    else Success(s.(loops := MovedLoops(s.loops, n, t), attachments := Retargeted(s.attachments, n, t)))
  }

  /** `rack`: the racking may only change by one. */
  function RackStep(s: MachineState, r: int): Result<MachineState> {
    if s.rack - r != 1 && r - s.rack != 1 then
      Failure("Change in racking isn't by +/-1 -- from " + IntToString(s.rack) + " to " + IntToString(r) + ".")
    else Success(s.(rack := r))
  }

  /** The trace and errors after replaying `ops` from the initial state. */
  function Replay(ops: seq<Op>): (r: Run)
    ensures |r.trace| >= 1 && r.trace[0] == Initial
    decreases |ops|
  {
    if ops == [] then Run([Initial], [])
    else
      var prev := Replay(ops[..|ops| - 1]);
      Record(prev, |ops| - 1, Step(Last(prev), ops[|ops| - 1]))
  }

  /** The last committed state of a run. */
  function Last(run: Run): MachineState
    requires |run.trace| >= 1
  {
    run.trace[|run.trace| - 1]
  }

  /** A run extended by the outcome of instruction `index`. */
  function Record(run: Run, index: nat, r: Result<MachineState>): (next: Run)
    ensures |next.trace| + |next.errors| == |run.trace| + |run.errors| + 1
    ensures run.trace <= next.trace && run.errors <= next.errors
    ensures |next.trace| == |run.trace| + 1 <==> r.Success?
  {
    match r
    case Success(s) => Run(run.trace + [s], run.errors)
    case Failure(m) => Run(run.trace, run.errors + [ValidationError(index, m)])
  }

  lemma ReplaySnoc(ops: seq<Op>, op: Op)
    ensures Replay(ops + [op]) == Record(Replay(ops), |ops|, Step(Last(Replay(ops)), op))
  {
    assert (ops + [op])[..|ops|] == ops;
  }

  /** Recording the outcome of the next instruction against the last committed state extends the replay. */
  lemma ReplayNext(ops: seq<Op>, i: nat, run: Run, r: Result<MachineState>)
    requires i < |ops| && run == Replay(ops[..i]) && r == Step(Last(run), ops[i])
    ensures Record(run, i, r) == Replay(ops[..i + 1])
  {
    var done := ops[..i + 1];
    assert done[..|done| - 1] == ops[..i] && done[|done| - 1] == ops[i];
  }

  // ---------------------------------------------------------------- the imperative validator

  /** `checkYarns` / `checkOut`: the loop over the yarns an instruction uses. */
  method CheckYarns(carriers: map<nat, int>, ys: seq<nat>, expected: int) returns (e: Option<string>)
    ensures e == CarrierError(carriers, ys, expected)
  {
    var i := 0;
    while i < |ys|
      invariant 0 <= i <= |ys|
      invariant CarrierError(carriers, ys, expected) == CarrierError(carriers, ys[i..], expected)
    {
      var yarn := ys[i];
      if yarn !in carriers {
        return Some("Using yarn " + NatToString(yarn) + ", but it is not in action.");
      }
      if carriers[yarn] != expected {
        return Some("Expected yarn " + NatToString(yarn) + " at " + IntToString(expected) + ", but it is at "
                    + IntToString(carriers[yarn]) + ".");
      }
      assert ys[i..][1..] == ys[i + 1..];
      i := i + 1;
    }
    return None;
  }

  /** The loop of `setYarns` and of `setAttachments`: set every listed key to `v`, one at a time. */
  method AssignAll<K, V>(m: map<K, V>, ks: seq<K>, v: V) returns (r: map<K, V>)
    ensures r == Assigned(m, ks, v)
  {
    r := m;
    var i := 0;
    while i < |ks|
      invariant 0 <= i <= |ks|
      invariant r == Assigned(m, ks[..i], v)
    {
      assert ks[..i + 1] == ks[..i] + [ks[i]];
      r := r[ks[i] := v];
      i := i + 1;
    }
    assert ks[..i] == ks;
  }

  /** `moveAttachments`: every attachment at `n` is moved to `t`. */
  method MoveAttachments(attachments: map<nat, Attachment>, n: Needle, t: Needle) returns (r: map<nat, Attachment>)
    ensures r == Retargeted(attachments, n, t)
  {
    r := attachments;
    var todo := attachments.Keys;
    while todo != {}
      invariant todo <= attachments.Keys && r.Keys == attachments.Keys
      invariant forall y :: y in r ==> r[y] == if y in todo then attachments[y] else Retarget(attachments[y], n, t)
      decreases todo
    {
      var y :| y in todo;
      if r[y].needle == n {
        r := r[y := Attachment(t, r[y].direction)];
      }
      todo := todo - {y};
    }
  }

  /** One pass of the loop body of `validate`: check and update a copy of the last state. */
  method Apply(s: MachineState, op: Op) returns (r: Result<MachineState>)
    ensures r == Step(s, op)
  {
    if op.Tuck? || op.Knit? {
      r := ApplyStitch(s, op);
    } else if op.Split? {
      r := ApplySplit(s, op);
    } else if op.Miss? || op.In? || op.Out? {
      r := ApplyCarrier(s, op);
    } else {
      r := ApplyBare(s, op);
    }
  }

  /** `tuck` and `knit`: check the carriers, update the needle's loop count, attach and move the yarns. */
  method ApplyStitch(s: MachineState, op: Op) returns (r: Result<MachineState>)
    requires op.Tuck? || op.Knit?
    ensures r == Step(s, op)
  {
    var d, n, ys := op.direction, op.needle, op.yarns;
    var e := CheckYarns(s.carriers, YarnIds(ys), PhysicalPos(n, Opposite(d), s.rack));
    if e.Some? {
      return Failure(e.value);
    }
    var loops := s.loops;
    if op.Tuck? {
      if |ys| > 0 {
        if n !in loops { loops := loops[n := |ys|]; } else { loops := loops[n := loops[n] + 1]; }
      }
    } else {
      loops := loops - {n};
      if |ys| > 0 { loops := loops[n := |ys|]; }
    }
    r := Work(s, loops, s.attachments, d, n, ys);
  }

  /** `split`: check the alignment and the carriers, move the loops and attachments, then as a knit. */
  method ApplySplit(s: MachineState, op: Op) returns (r: Result<MachineState>)
    requires op.Split?
    ensures r == Step(s, op)
  {
    var d, n, t, ys := op.direction, op.needle, op.target, op.yarns;
    var te := TargetError(n, t, s.rack);
    if te.Some? {
      return Failure(te.value);
    }
    var e := CheckYarns(s.carriers, YarnIds(ys), PhysicalPos(n, Opposite(d), s.rack));
    if e.Some? {
      return Failure(e.value);
    }
    var loops := MoveLoops(s.loops, n, t);
    if |ys| > 0 { loops := loops[n := |ys|]; }
    var attachments := MoveAttachments(s.attachments, n, t);
    r := Work(s, loops, attachments, d, n, ys);
  }

  /** `miss`, `in` and `out`: the operations that move one carrier without forming a loop. */
  method ApplyCarrier(s: MachineState, op: Op) returns (r: Result<MachineState>)
    requires op.Miss? || op.In? || op.Out?
    ensures r == Step(s, op)
  {
    var d, n, y := op.direction, op.needle, op.yarn;
    if op.Miss? {
      var e := CheckYarns(s.carriers, [y], PhysicalPos(n, Opposite(d), s.rack));
      if e.Some? {
        return Failure(e.value);
      }
      var carriers := AssignAll(s.carriers, [y], PhysicalPos(n, d, s.rack));
      r := Success(s.(carriers := carriers));
    } else if op.In? {
      if y in s.carriers {
        return Failure("Can't bring in yarn " + NatToString(y) + " because it is already in.");
      }
      var carriers := AssignAll(s.carriers, [y], PhysicalPos(n, d, s.rack));
      r := Success(s.(carriers := carriers));
    } else {
      var e := CheckYarns(s.carriers, [y], PhysicalPos(n, d, s.rack));
      if e.Some? {
        return Failure(e.value);
      }
      r := Success(s.(carriers := s.carriers - {y}, attachments := s.attachments - {y}));
    }
  }

  /** `drop`, `xfer` and `rack`: the operations that use no yarn. */
  method ApplyBare(s: MachineState, op: Op) returns (r: Result<MachineState>)
    requires op.Drop? || op.Xfer? || op.Rack?
    ensures r == Step(s, op)
  {
    if op.Drop? {
      var n := op.needle;
      if n !in s.loops || s.loops[n] <= 0 {
        return Failure("Can't drop " + NeedleText(n) + " because it contains no loops.");
      }
      r := Success(s.(loops := s.loops - {n}));
    } else if op.Xfer? {
      var n, t := op.needle, op.target;
      var te := TargetError(n, t, s.rack);
      if te.Some? {
        return Failure(te.value);
      }
      var loops := MoveLoops(s.loops, n, t);
      var attachments := MoveAttachments(s.attachments, n, t);
      r := Success(s.(loops := loops, attachments := attachments));
    } else {
      var newRack := op.rack;
      if s.rack - newRack != 1 && newRack - s.rack != 1 {
        return Failure("Change in racking isn't by +/-1 -- from " + IntToString(s.rack) + " to "
                       + IntToString(newRack) + ".");
      }
      r := Success(s.(rack := newRack));
    }
  }

  /** The loops of `n` are added to those of `t` and `n` is emptied, as `xfer` and `split` do. */
  method MoveLoops(loops: map<Needle, int>, n: Needle, t: Needle) returns (r: map<Needle, int>)
    ensures r == MovedLoops(loops, n, t)
  {
    r := loops;
    if n in r {
      if t !in r { r := r[t := r[n]]; } else { r := r[t := r[t] + r[n]]; }
      r := r - {n};
    }
  }

  /** The tail of a loop-forming instruction: attach its yarns at `n` and park them on the `d` side. */
  method Work(s: MachineState, loops: map<Needle, int>, attachments: map<nat, Attachment>, d: Dir, n: Needle, ys: seq<YarnLength>)
    returns (r: Result<MachineState>)
    ensures r == Success(Worked(s, loops, attachments, d, n, ys))
  {
    var attached := AssignAll(attachments, YarnIds(ys), Attachment(n, d));
    var carriers := AssignAll(s.carriers, YarnIds(ys), PhysicalPos(n, d, s.rack));
    r := Success(MachineState(s.rack, loops, carriers, attached));
  }

  /**
   * `validate`: replay every instruction against the last committed state, appending a state for
   * each accepted instruction and an error for each refused one.
   */
  method Validate(instructions: seq<Instruction>) returns (trace: seq<MachineState>, errors: seq<ValidationError>)
    ensures Run(trace, errors) == Replay(Ops(instructions))
    ensures |trace| == 1 + |instructions| - |errors|
  {
    ghost var ops := Ops(instructions);
    trace, errors := [Initial], [];
    var i := 0;
    while i < |instructions|
      invariant 0 <= i <= |instructions|
      invariant Run(trace, errors) == Replay(ops[..i])
      invariant |trace| == 1 + i - |errors|
    {
      trace, errors := Advance(ops, i, trace, errors, instructions[i].op);
      i := i + 1;
    }
    assert ops[..i] == ops;
  }

  /** One round of `validate`: check instruction `i` against the last committed state and record the outcome. */
  method Advance(ghost ops: seq<Op>, i: nat, trace: seq<MachineState>, errors: seq<ValidationError>, op: Op)
    returns (trace': seq<MachineState>, errors': seq<ValidationError>)
    requires i < |ops| && op == ops[i] && Run(trace, errors) == Replay(ops[..i])
    ensures Run(trace', errors') == Replay(ops[..i + 1])
    ensures |trace'| + |errors'| == |trace| + |errors| + 1
  {
    var r := Apply(Last(Run(trace, errors)), op);
    ReplayNext(ops, i, Run(trace, errors), r);
    match r {
      case Success(state) => trace', errors' := trace + [state], errors;
      case Failure(message) => trace', errors' := trace, errors + [ValidationError(i, message)];
    }
  }

  function Ops(instructions: seq<Instruction>): (ops: seq<Op>)
    ensures |ops| == |instructions|
  {
    seq(|instructions|, i requires 0 <= i < |instructions| => instructions[i].op)
  }

  // ---------------------------------------------------------------- properties of a run

  /** The trace holds the initial state and one state per accepted instruction. */
  lemma {:induction false} TraceLength(ops: seq<Op>)
    ensures |Replay(ops).trace| == 1 + |ops| - |Replay(ops).errors|
    decreases |ops|
  {
    if ops != [] {
      TraceLength(ops[..|ops| - 1]);
    }
  }

  /** Errors name each refused instruction once, in order. */
  lemma {:induction false} ErrorsInOrder(ops: seq<Op>)
    ensures forall i :: 0 <= i < |Replay(ops).errors| ==> Replay(ops).errors[i].instruction < |ops|
    ensures forall i, j :: 0 <= i < j < |Replay(ops).errors| ==>
      Replay(ops).errors[i].instruction < Replay(ops).errors[j].instruction
    decreases |ops|
  {
    if ops != [] {
      ErrorsInOrder(ops[..|ops| - 1]);
    }
  }

  /** A refused instruction leaves the trace as it was and adds its error, at its own index. */
  lemma RefusedIsSkipped(ops: seq<Op>, op: Op)
    requires Step(Last(Replay(ops)), op).Failure?
    ensures Replay(ops + [op]) ==
      Run(Replay(ops).trace, Replay(ops).errors + [ValidationError(|ops|, Step(Last(Replay(ops)), op).error)])
  {
    ReplaySnoc(ops, op);
  }

  /** The instruction after a refused one is checked against the last committed state. */
  lemma CheckedAgainstCommitted(ops: seq<Op>, op: Op, next: Op)
    requires Step(Last(Replay(ops)), op).Failure?
    ensures var last := Last(Replay(ops));
      Replay(ops + [op] + [next]).trace ==
        Replay(ops).trace + (if Step(last, next).Success? then [Step(last, next).value] else [])
  {
    var run0 := Replay(ops);
    var last := Last(run0);
    RefusedIsSkipped(ops, op);
    var run1 := Replay(ops + [op]);
    SameLast(run1, run0);
    ReplaySnoc(ops + [op], next);
    assert Replay(ops + [op] + [next]) == Record(run1, |ops| + 1, Step(last, next));
    RecordTrace(run1, |ops| + 1, Step(last, next));
  }

  lemma SameLast(a: Run, b: Run)
    requires |b.trace| >= 1 && a.trace == b.trace
    ensures |a.trace| >= 1 && Last(a) == Last(b)
  {
  }

  lemma RecordTrace(run: Run, index: nat, r: Result<MachineState>)
    ensures Record(run, index, r).trace == run.trace + (if r.Success? then [r.value] else [])
  {
  }

  /** Every state of a trace has positive loop counts only. */
  lemma {:induction false} TraceValid(ops: seq<Op>)
    ensures forall i :: 0 <= i < |Replay(ops).trace| ==> Valid(Replay(ops).trace[i])
    decreases |ops|
  {
    if ops != [] {
      var prev := Replay(ops[..|ops| - 1]);
      TraceValid(ops[..|ops| - 1]);
      if Step(Last(prev), ops[|ops| - 1]).Success? {
        StepKeepsValid(Last(prev), ops[|ops| - 1]);
      }
    }
  }

  // ---------------------------------------------------------------- properties of one step

  /** No instruction makes a loop count zero or negative. */
  lemma StepKeepsValid(s: MachineState, op: Op)
    requires Valid(s) && Step(s, op).Success?
    ensures Valid(Step(s, op).value)
  {
  }

  /** `in` fails if the yarn already has a carrier; otherwise it places the carrier and attaches nothing. */
  lemma InRule(s: MachineState, d: Dir, n: Needle, y: nat)
    ensures Step(s, In(d, n, y)).Success? <==> y !in s.carriers
    ensures Step(s, In(d, n, y)).Success? ==>
      Step(s, In(d, n, y)).value == s.(carriers := s.carriers[y := PhysicalPos(n, d, s.rack)])
  {
    if y !in s.carriers {
      assert Assigned(s.carriers, [y], PhysicalPos(n, d, s.rack)) == s.carriers[y := PhysicalPos(n, d, s.rack)];
    }
  }

  /** `out` needs the carrier at the column on the same side as its direction, and removes carrier and attachment. */
  lemma OutRule(s: MachineState, d: Dir, n: Needle, y: nat)
    ensures Step(s, Out(d, n, y)).Success? <==> y in s.carriers && s.carriers[y] == PhysicalPos(n, d, s.rack)
    ensures Step(s, Out(d, n, y)).Success? ==>
      Step(s, Out(d, n, y)).value == s.(carriers := s.carriers - {y}, attachments := s.attachments - {y})
  {
    assert [y][0] == y;
  }

  /**
   * Miss, tuck, knit and split need every yarn they use at the column on the side opposite their
   * direction, and leave it at the column on the side of their direction.
   */
  lemma CarrierRule(s: MachineState, op: Op)
    requires op.Miss? || op.Tuck? || op.Knit? || op.Split?
    requires Step(s, op).Success?
    ensures var ys := if op.Miss? then [op.yarn] else YarnIds(op.yarns);
      forall y :: y in ys ==>
        && y in s.carriers && s.carriers[y] == PhysicalPos(op.needle, Opposite(op.direction), s.rack)
        && Step(s, op).value.carriers[y] == PhysicalPos(op.needle, op.direction, s.rack)
  {
  }

  /** A miss is accepted exactly when its yarn is ready, and moves nothing but that carrier. */
  lemma MissRule(s: MachineState, d: Dir, n: Needle, y: nat)
    ensures Step(s, Miss(d, n, y)).Success? <==> y in s.carriers && s.carriers[y] == PhysicalPos(n, Opposite(d), s.rack)
    ensures Step(s, Miss(d, n, y)).Success? ==>
      Step(s, Miss(d, n, y)).value == s.(carriers := s.carriers[y := PhysicalPos(n, d, s.rack)])
  {
    assert [y][0] == y;
    if y in s.carriers {
      assert Assigned(s.carriers, [y], PhysicalPos(n, d, s.rack)) == s.carriers[y := PhysicalPos(n, d, s.rack)];
    }
  }

  /** A tuck with yarns sets the count to the number of yarns on an empty needle and adds exactly 1 otherwise. */
  lemma TuckRule(s: MachineState, d: Dir, n: Needle, l: real, ys: seq<YarnLength>)
    requires Step(s, Tuck(d, n, l, ys)).Success? && |ys| > 0
    ensures var loops := Step(s, Tuck(d, n, l, ys)).value.loops;
      && loops[n] == (if n in s.loops then s.loops[n] + 1 else |ys|)
      && forall m :: m != n ==> (m in loops <==> m in s.loops) && (m in loops ==> loops[m] == s.loops[m])
    ensures forall y :: y in YarnIds(ys) ==> Step(s, Tuck(d, n, l, ys)).value.attachments[y] == Attachment(n, d)
  {
  }

  /** A knit replaces the needle's count with the number of its yarns. */
  lemma KnitRule(s: MachineState, d: Dir, n: Needle, l: real, ys: seq<YarnLength>)
    requires Step(s, Knit(d, n, l, ys)).Success?
    ensures var loops := Step(s, Knit(d, n, l, ys)).value.loops;
      && (|ys| > 0 ==> n in loops && loops[n] == |ys|)
      && (|ys| == 0 ==> n !in loops)
      && forall m :: m != n ==> (m in loops <==> m in s.loops) && (m in loops ==> loops[m] == s.loops[m])
  {
  }

  /** A drop is accepted exactly when the needle holds loops, and only clears that needle. */
  lemma DropRule(s: MachineState, n: Needle)
    ensures Step(s, Drop(n)).Success? <==> n in s.loops && s.loops[n] > 0
    ensures Step(s, Drop(n)).Success? ==> Step(s, Drop(n)).value == s.(loops := s.loops - {n})
  {
  }

  /**
   * Split and xfer need the needles on opposite beds and aligned at the current racking; the
   * loops of the needle go onto the target and the attachments at the needle follow them.
   */
  lemma TransferRule(s: MachineState, op: Op)
    requires op.Split? || op.Xfer?
    requires Step(s, op).Success?
    ensures op.needle.bed != op.target.bed
    ensures PhysicalPos(op.needle, Minus, s.rack) == PhysicalPos(op.target, Minus, s.rack)
    ensures op.Xfer? ==> (Step(s, op).value ==
      s.(loops := MovedLoops(s.loops, op.needle, op.target), attachments := Retargeted(s.attachments, op.needle, op.target)))
    ensures op.Split? ==> var loops := Step(s, op).value.loops;
      && (|op.yarns| > 0 ==> loops[op.needle] == |op.yarns|)
      && (|op.yarns| == 0 ==> op.needle !in loops)
      && (op.needle in s.loops ==>
            loops[op.target] == (if op.target in s.loops then s.loops[op.target] else 0) + s.loops[op.needle])
      && (op.needle !in s.loops ==> (op.target in loops <==> op.target in s.loops))
      && (op.needle !in s.loops && op.target in s.loops ==> loops[op.target] == s.loops[op.target])
      && (forall m :: m != op.needle && m != op.target ==> (m in loops <==> m in s.loops) && (m in loops ==> loops[m] == s.loops[m]))
    ensures op.Xfer? ==> var loops := Step(s, op).value.loops;
      && op.needle !in loops
      && (op.needle in s.loops ==>
            op.target in loops && loops[op.target] == (if op.target in s.loops then s.loops[op.target] else 0) + s.loops[op.needle])
      && (op.needle !in s.loops ==> loops == s.loops)
      && (forall m :: m != op.needle && m != op.target ==> (m in loops <==> m in s.loops) && (m in loops ==> loops[m] == s.loops[m]))
    ensures op.Split? ==> var a := Step(s, op).value.attachments;
      && a.Keys == s.attachments.Keys + set y | y in YarnIds(op.yarns)
      && (forall y :: y in YarnIds(op.yarns) ==> a[y] == Attachment(op.needle, op.direction))
      && (forall y :: y in s.attachments && y !in YarnIds(op.yarns) && s.attachments[y].needle == op.needle ==>
            a[y] == Attachment(op.target, s.attachments[y].direction))
      && (forall y :: y in s.attachments && y !in YarnIds(op.yarns) && s.attachments[y].needle != op.needle ==>
            a[y] == s.attachments[y])
  {
    if op.Split? {
      assert Step(s, op) == SplitStep(s, op.direction, op.needle, op.target, op.yarns);
    } else {
      assert Step(s, op) == XferStep(s, op.needle, op.target);
    }
  }

  /** A rack is accepted exactly when it changes the racking by one, and changes nothing else. */
  lemma RackRule(s: MachineState, r: int)
    ensures Step(s, Rack(r)).Success? <==> (r == s.rack + 1 || r == s.rack - 1)
    ensures Step(s, Rack(r)).Success? ==> Step(s, Rack(r)).value == s.(rack := r)
  {
  }

  // ---------------------------------------------------------------- conservation of loops under xfer

  /** The total number of loops held by the needles. */
  ghost function Total(m: map<Needle, int>): int
    decreases |m|
  {
    if m == map[] then 0
    else
      var n :| n in m;
      m[n] + Total(m - {n})
  }

  lemma {:induction false} TotalRemove(m: map<Needle, int>, n: Needle)
    requires n in m
    ensures Total(m) == m[n] + Total(m - {n})
    decreases |m|
  {
    var k :| k in m && Total(m) == m[k] + Total(m - {k});
    if k != n {
      assert (m - {k}) - {n} == (m - {n}) - {k};
      TotalRemove(m - {k}, n);
      TotalRemove(m - {n}, k);
    }
  }

  /** An accepted xfer keeps the total number of loops on the machine. */
  lemma XferKeepsLoops(s: MachineState, n: Needle, t: Needle)
    requires Step(s, Xfer(n, t)).Success?
    ensures Total(Step(s, Xfer(n, t)).value.loops) == Total(s.loops)
  {
    if n in s.loops {
      var rest := s.loops - {n};
      var v := if t in s.loops then s.loops[t] + s.loops[n] else s.loops[n];
      var after := Step(s, Xfer(n, t)).value.loops;
      assert after == rest[t := v];
      TotalRemove(s.loops, n);
      TotalRemove(rest[t := v], t);
      assert rest[t := v] - {t} == rest - {t};
      if t in rest {
        TotalRemove(rest, t);
      } else {
        assert rest - {t} == rest;
      }
    }
  }
}
