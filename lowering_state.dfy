/**
 * Knitout to formal knitout (`k2f.mjs`): the state of the lowering pass and the lines it writes.
 *
 * The pass keeps a carrier table, a table of needles known to hold loops, the current racking and
 * the output buffer. Output lines are kept as structured values; `Render` gives their exact text.
 */
module LoweringState {
  import opened Text
  import opened FormalSyntax

  /** A carrier position: beside `needle`, on its `+` side when `direction` is "+" and otherwise on its `-` side. */
  datatype Loc = Loc(needle: Needle, direction: string)

  /**
   * A carrier is out, pending (brought in, but the line that brings it in is still a placeholder
   * at `outputIndex`), or in: parked where it last stopped and attached to the last loop it formed.
   */
  datatype CarrierState =
    | Absent
    | Pending(outputIndex: nat, original: string)
    | Parked(parked: Loc, attached: Loc)

  /** A carrier of the `Carriers` header and the yarn number it stands for. */
  datatype Carrier = Carrier(yarn: nat, state: CarrierState)

  /**
   * A key of the loop table. Tuck and split use the needle's own key; knit and drop build their key
   * from a field the needle does not have, so they use one key per bed (`f.undefined`).
   */
  datatype LoopKey = At(needle: Needle) | Undefined(bed: Bed)

  /** A `(yarn,length)` annotation. */
  datatype YarnUse = YarnUse(yarn: nat, length: nat)

  /** The stitch size every loop-forming instruction is written with. */
  const StitchSize: nat := 30

  /** What an output line says, before the original knitout line is appended. */
  datatype Body =
    | CommentLine
    | Placeholder(name: string)
    | InAt(direction: string, index: int, yarn: nat, note: string)
    | OutAt(direction: string, needle: Needle, yarn: nat)
    | RackNotNeeded
    | RackAt(racking: int)
    | MissAt(direction: string, needle: Needle, yarn: nat)
    | AmissIgnored
    | TuckAt(direction: string, needle: Needle, yarns: seq<YarnUse>)
    | KnitAt(direction: string, needle: Needle, yarns: seq<YarnUse>)
    | DropAt(needle: Needle)
    | SplitAt(direction: string, needle: Needle, yarns: seq<YarnUse>)
    | XferAt(needle: Needle, target: Needle)

  /** An output line: its body and the original line it was translated from ("" after the first line of a translation). */
  datatype Line = Line(body: Body, original: string)

  /** The pass state: the module-level variables of the source. */
  datatype LState = LState(
    carriers: map<string, Carrier>,
    loops: map<LoopKey, nat>,
    racking: int,
    output: seq<Line>)

  /** The state while one input line is translated: the original text is attached to the first line emitted. */
  datatype Cursor = Cursor(st: LState, original: string)

  /** `emit`: append a line carrying the original text, which is then used up. */
  function Emit(c: Cursor, b: Body): (r: Cursor)
    ensures r.st.output == c.st.output + [Line(b, c.original)] && r.original == ""
    ensures r.st.carriers == c.st.carriers && r.st.loops == c.st.loops && r.st.racking == c.st.racking
  {
    Cursor(c.st.(output := c.st.output + [Line(b, c.original)]), "")
  }

  // ---------------------------------------------------------------- positions

  /** A carrier position in half-needle units: twice the source's `index ± 0.5 (+ racking on the back bed)`. */
  function Half(l: Loc, racking: int): int {
    2 * l.needle.index + (if l.direction == "+" then 1 else -1) + (if l.needle.bed == Back then 2 * racking else 0)
  }

  /** Every carrier position lies between two needles, so its doubled value is odd. */
  lemma HalfIsOdd(l: Loc, racking: int)
    ensures Half(l, racking) % 2 == 1
  {
  }

  /** The column of a needle at a racking. */
  function Column(n: Needle, racking: int): int {
    n.index + (if n.bed == Back then racking else 0)
  }

  /** The length of yarn from the attachment to needle `n`: the distance between their columns. */
  function YarnDistance(n: Needle, attached: Loc, racking: int): (len: nat)
    ensures n.bed == attached.needle.bed ==> len == if n.index < attached.needle.index then attached.needle.index - n.index else n.index - attached.needle.index
  {
    var diff := Column(n, racking) - Column(attached.needle, racking);
    if diff < 0 then -diff else diff
  }

  // ---------------------------------------------------------------- rendering

  function YarnText(y: YarnUse): string {
    "(" + NatToString(y.yarn) + "," + NatToString(y.length) + ")"
  }

  function YarnsText(ys: seq<YarnUse>): string {
    Join(seq(|ys|, i requires 0 <= i < |ys| => YarnText(ys[i])), " ")
  }

  function BodyText(b: Body): string {
    match b
    case CommentLine => ""
    case Placeholder(name) => "(PLACEHOLDER FOR " + name + " IN)"
    case InAt(d, index, yarn, note) => "in " + d + " f." + IntToString(index) + " " + NatToString(yarn) + " ;" + note
    case OutAt(d, n, yarn) => "out " + d + " " + NeedleText(n) + " " + NatToString(yarn)
    case RackNotNeeded => "; (rack not needed)"
    case RackAt(r) => "rack " + IntToString(r)
    case MissAt(d, n, yarn) => "miss " + d + " " + NeedleText(n) + " " + NatToString(yarn)
    case AmissIgnored => "; amiss ignored"
    case TuckAt(d, n, ys) => "tuck " + d + " " + NeedleText(n) + " " + NatToString(StitchSize) + " " + YarnsText(ys)
    case KnitAt(d, n, ys) => "knit " + d + " " + NeedleText(n) + " " + NatToString(StitchSize) + " " + YarnsText(ys)
    case DropAt(n) => "drop " + NeedleText(n)
    case SplitAt(d, n, ys) => "split " + d + " " + NeedleText(n) + " " + NatToString(StitchSize) + " " + YarnsText(ys)
    case XferAt(n, t) => "xfer " + NeedleText(n) + " " + NeedleText(t)
  }

  /** The text of an output line: the body padded to 30 columns and followed by `; original` when there is one. */
  function Render(l: Line): (text: string)
    ensures |BodyText(l.body)| <= |text| && text[..|BodyText(l.body)|] == BodyText(l.body)
    ensures l.original != "" ==> |text| >= 32 + |l.original| && text[|text| - |l.original| - 2..] == "; " + l.original
    ensures l.original == "" ==> text == BodyText(l.body)
    ensures l.original != "" ==>
      var w := if |BodyText(l.body)| < 30 then 30 else |BodyText(l.body)|;
      |text| == w + 2 + |l.original| && forall j :: |BodyText(l.body)| <= j < w ==> text[j] == ' '
  {
    if l.original != "" then PadTo(BodyText(l.body), 30) + "; " + l.original else BodyText(l.body)
  }

  /** The output file: every line followed by a newline. */
  function OutputText(output: seq<Line>): string {
    Join(seq(|output|, i requires 0 <= i < |output| => Render(output[i])), "\n") + "\n"
  }
}
