# Formal knitout: parser, validator and knitout-to-formal-knitout translator

Formal knitout is a small machine language for V-bed knitting machines. Every instruction
states where its yarn carriers must be, how much yarn it uses and what it does to the loops
on the needles. This project models two programs that work on it:

- **`fnitout.mjs`** has two parts.
  - `parse` reads a formal-knitout program line by line into instructions and per-line
    parse errors.
  - `validate` replays the instructions against a machine state. The state holds the racking,
    the loop count of every needle, the column of every carrier in action, and where each
    yarn is attached.
  - `validate` produces the trace of states and one error for every refused instruction.
- **`k2f.mjs`** translates ordinary knitout into formal knitout.
  - It checks the magic line and the comment headers, then gives every carrier named in the
    `Carriers` header its yarn number.
  - It then translates the body line by line. Synonyms (`amiss`, `drop`, `xfer`) are
    resolved, and the `in` of a carrier is back-patched at the carrier's first use.
  - Before a stitch, each carrier is walked to the needle with one `miss` per needle step.
    `rack` is split into unit steps.
  - `knit` and `split` on a needle that holds no loops decay to `tuck`.
  - Each stitch is annotated with the yarn length it draws from where the yarn was last attached.

Modules:

| module | file | contents |
|---|---|---|
| `Results` | results.dfy | `Result` and `Option` with failure propagation |
| `Text` | text.dfy | splitting into lines, tokenising at whitespace, decimal numerals, number printing |
| `FormalSyntax` | formal_syntax.dfy | instructions, the grammar of a line, the field consumers, `Parse` |
| `FormalTrace` | formal_trace.dfy | machine state, `Step` (reference definition of one instruction), `Replay`, the imperative `Validate` |
| `LoweringState` | lowering_state.dfy | carrier table, loop table, racking, output lines and how they are rendered |
| `LoweringSpec` | lowering_spec.dfy | `LineStep`, the reference definition of translating one knitout line |
| `LoweringPass` | lowering_pass.dfy | class `Lowering`: the module-level variables of `k2f.mjs`, updated in place and proved to agree with `LineStep` |
| `LoweringMain` | lowering_header.dfy | magic line, headers, carrier numbering, the per-line loop; `Run` agrees with `Lower` |
| `LoweringLemmas` | lowering_lemmas.dfy | the placeholder invariant behind the back-patch, and the rules of the translation |

Each imperative part is a method with loops. It is proved equal to a function stated
declaratively, and the lemmas are stated about that function:

- `Parse` is proved against `Grammar`.
- `Validate` is proved against `Replay` and `Step`.
- `Lowering.ProcessLine` is proved against `LineStep`.
- `Run` is proved against `Lower`.

Conventions of the model:

- Carrier positions are half-needle values (`index ± 0.5`, plus the racking on the back bed).
  They are doubled, so they stay integers; `Half` computes them.
- JavaScript's `Number(text)` together with `isFinite` is a function parameter `num`. It gives
  the value of a length token, or nothing when the value is not finite.
- `fnitout.mjs` keys its loop table by the needle's text. The model uses the needle value
  itself as the key. Text and value correspond one to one, by `FormalSyntax.NeedleRoundTrip`.

## Model

| member | source | states |
|---|---|---|
| FormalSyntax.ReadYarns | fnitout.mjs:146-161 | the yarn-list consumer succeeds exactly when every remaining token is a `(yarn,length)` entry with a finite length and no yarn id repeats; the entries are the tokens' own, in order |
| FormalSyntax.ReadStitch | fnitout.mjs:177-198 | knit/tuck/split fields are read exactly when the line is in the grammar (at least one yarn for knit and split, exactly one for tuck) and give the grammar's operation |
| FormalSyntax.ReadCarrierOp | fnitout.mjs:199-203 | miss/in/out read a direction, a needle and one yarn id, and match the grammar when no token is left over |
| FormalSyntax.ReadBareOp | fnitout.mjs:204-210 | drop reads one needle, xfer two, rack one racking value; they match the grammar when no token is left over |
| FormalSyntax.ParseFields | fnitout.mjs:177-214 | the consumers succeed exactly when the token line is in the grammar, and then give its operation; an unknown operation and extra tokens are refused |
| FormalSyntax.ParseLine | fnitout.mjs:101-223 | a line is blank, parsed or failed exactly as its kind says; a parsed line carries the grammar's operation, its 1-based line number and the text after the first `;`; an error carries the line number |
| FormalSyntax.Parse | fnitout.mjs:88-227 | the instructions are those of the well-formed lines in order; the errors are one per malformed line, in order; every line is accounted for once |
| FormalSyntax.ParseText | fnitout.mjs:88-93 | `parse` given one string splits it into lines first; its instructions, errors and blank lines are those of `Parse` on the split lines |
| FormalSyntax.LinesPartition | fnitout.mjs:99-224 | instructions, errors and blank lines together number exactly the lines of the program |
| FormalSyntax.LineAccounted | fnitout.mjs:217-223 | a line number is listed under a kind if and only if that line has that kind |
| FormalSyntax.LinesOfKindBounded | fnitout.mjs:99-104 | reported line numbers lie in 1..number of lines and strictly increase |
| FormalSyntax.NeedleRoundTrip | fnitout.mjs:28-49 | a needle printed as `bed.index` parses back to itself |
| FormalSyntax.NeedleExamples | fnitout.mjs:45-49 | `f.3` and `b.-12` are needles; `f3`, `x.3` and `f.3.5` are refused |
| FormalSyntax.YarnCounts | fnitout.mjs:183-198 | a well-formed knit or split has at least one yarn, a tuck exactly one |
| FormalSyntax.YarnIdsDistinct | fnitout.mjs:154 | the yarn ids within one yarn list are distinct |
| FormalSyntax.UnknownOperation | fnitout.mjs:211-213 | a first token outside the nine operations is never well formed |
| FormalSyntax.LeftoverTokens | fnitout.mjs:214 | a token after the fixed fields of miss/in/out/drop/xfer/rack makes the line malformed |
| FormalTrace.CarrierError | fnitout.mjs:267-294 | there is no error exactly when every yarn used is in action and its carrier is at the expected column |
| FormalTrace.Assigned | fnitout.mjs:315-330 | after `setYarns` or `setAttachments` every listed yarn holds the new column or attachment, every other entry is unchanged, and exactly the listed yarns are added |
| FormalTrace.Retargeted | fnitout.mjs:307-313 | after `moveAttachments` a yarn attached at the needle is attached at the target with its own direction, every other attachment is unchanged, and no yarn is added or removed |
| FormalTrace.Replay | fnitout.mjs:250-252 | a replay starts from the initial state: racking 0, no loops, no carriers |
| FormalTrace.Record | fnitout.mjs:411-419 | each instruction adds exactly one entry and keeps all earlier ones; the entry goes to the trace exactly when the instruction is accepted |
| FormalTrace.CheckYarns | fnitout.mjs:267-294 | the loop over the used yarns reports the first yarn not in action or not at the expected column, as `CarrierError` does |
| FormalTrace.AssignAll | fnitout.mjs:315-330 | the loops of `setAttachments` and `setYarns`, one entry at a time, compute `Assigned` |
| FormalTrace.MoveAttachments | fnitout.mjs:307-313 | the loop over all attachments computes `Retargeted` |
| FormalTrace.MovedLoops | fnitout.mjs:393-400 | when the needle holds loops and differs from the target, the needle's entry is removed and the target's becomes its old count (0 if absent) plus the needle's; when it holds none nothing changes; every other needle is unchanged |
| FormalTrace.MoveLoops | fnitout.mjs:393-400 | the in-place update of the loop table computes `MovedLoops` |
| FormalTrace.Work | fnitout.mjs:340-341 | a loop-forming instruction attaches its yarns at the needle and moves them to the column on its direction's side |
| FormalTrace.Apply | fnitout.mjs:253-409 | one pass of the loop body on a copy of the last state gives the next state or the refusal, exactly as `Step` |
| FormalTrace.ApplyStitch | fnitout.mjs:332-351 | a `tuck` or `knit` on a copy of the state gives the next state or the refusal, exactly as `Step` |
| FormalTrace.ApplySplit | fnitout.mjs:359-377 | a `split` on a copy of the state gives the next state or the refusal, exactly as `Step` |
| FormalTrace.ApplyCarrier | fnitout.mjs:378-390 | a `miss`, `in` or `out` on a copy of the state gives the next state or the refusal, exactly as `Step` |
| FormalTrace.ApplyBare | fnitout.mjs:352-406 | a `drop`, `xfer` or `rack`, which name no yarns, on a copy of the state gives the next state or the refusal, exactly as `Step` |
| FormalTrace.Validate | fnitout.mjs:241-423 | trace and errors equal the replay of all instructions; the trace has one state more than the accepted instructions |
| FormalTrace.Advance | fnitout.mjs:252-419 | one round of the loop extends the run by the outcome of the next instruction |
| FormalTrace.TraceLength | fnitout.mjs:250-252 | trace length is 1 + instructions − errors |
| FormalTrace.ErrorsInOrder | fnitout.mjs:413-419 | errors name existing instructions in strictly increasing order |
| FormalTrace.RefusedIsSkipped | fnitout.mjs:413-419 | a refused instruction leaves the trace unchanged and adds one error, carrying its own index and the refusal message |
| FormalTrace.CheckedAgainstCommitted | fnitout.mjs:254 | after a refusal, the next instruction is checked against the last committed state |
| FormalTrace.TraceValid | fnitout.mjs:332-409 | every state in a trace has only positive loop counts |
| FormalTrace.StepKeepsValid | fnitout.mjs:332-409 | no accepted instruction creates a zero or negative loop count |
| FormalTrace.InRule | fnitout.mjs:381-386 | `in` is accepted if and only if the yarn is not in action; it only places the carrier, with no attachment |
| FormalTrace.OutRule | fnitout.mjs:387-390 | `out` is accepted if and only if the carrier is at the column on the side of its direction; it removes carrier and attachment and nothing else |
| FormalTrace.CarrierRule | fnitout.mjs:266-279 | miss/tuck/knit/split need every yarn at the column on the side opposite their direction and leave it on their direction's side |
| FormalTrace.MissRule | fnitout.mjs:378-380 | a miss is accepted if and only if its yarn is ready, and it only moves that carrier |
| FormalTrace.TuckRule | fnitout.mjs:332-341 | a tuck with yarns sets an empty needle to the number of yarns and adds exactly 1 otherwise; no other needle changes; the yarns are attached at the needle |
| FormalTrace.KnitRule | fnitout.mjs:342-351 | a knit replaces the needle's count with the number of its yarns, or clears it when there are none; no other needle changes |
| FormalTrace.DropRule | fnitout.mjs:352-358 | a drop is accepted if and only if the needle holds loops, and it only clears that needle |
| FormalTrace.TransferRule | fnitout.mjs:296-304 | an accepted split or xfer has its needles on opposite beds and aligned at the racking; xfer clears the needle, adds its count (if any) onto the target's and moves the attachments; split moves the count onto the target (or leaves the target's count alone when the needle held none) and leaves the number of its yarns at the needle; for both, every other needle's count is unchanged; after a split each listed yarn is attached at the needle and direction, an unlisted yarn attached at the needle is attached at the target with its own direction, and every other attachment is unchanged |
| FormalTrace.RackRule | fnitout.mjs:402-406 | rack is accepted if and only if the racking changes by exactly one, and it changes nothing else |
| FormalTrace.XferKeepsLoops | fnitout.mjs:391-401 | an accepted xfer keeps the total number of loops on the machine |
| LoweringState.Emit | k2f.mjs:204-211 | `emit` appends one line carrying the original text, which is then used up; the tables are unchanged |
| LoweringState.HalfIsOdd | k2f.mjs:305-309 | every carrier position lies between two needles (its doubled value is odd) |
| LoweringState.YarnDistance | k2f.mjs:336-344 | the yarn length is the distance between columns, and on one bed the difference of the needle indices |
| LoweringState.Render | k2f.mjs:204-211 | an emitted line with an original is its instruction text padded with spaces to exactly 30 columns (or to the text's own length when longer), then `; ` and the original line; a line with no original is just the text |
| LoweringSpec.RackSteps | k2f.mjs:256-260 | the racking loop ends at the target; it writes one `rack` per unit step with the intermediate values in order, the first carrying the original line; it leaves earlier output and the tables alone |
| LoweringSpec.WalkPath | k2f.mjs:303-322 | a walk passes through Dist/2 positions on the carrier's bed, each one needle step further towards the target, ending at the target |
| LoweringSpec.WalkStep | k2f.mjs:311-321 | one step moves the parked carrier two half positions up or down, keeping it parked and the racking unchanged |
| LoweringSpec.WalkFollowsPath | k2f.mjs:303-322 | the step-by-step walk ends with the carrier at the end of its path, the attachment unchanged, and one `miss` per position in the direction of the target |
| LoweringSpec.SetUp | k2f.mjs:292-326 | making a carrier ready parks it and changes no other carrier, the loop table or the racking; output only grows |
| LoweringSpec.SetUpAll | k2f.mjs:292-326 | after set-up every listed carrier is parked, carriers already in stay in, unlisted carriers are unchanged, loop table and racking are kept |
| LoweringSpec.YarnUses | k2f.mjs:336-344 | one `(yarn,length)` per listed carrier, in order: the carrier's yarn and the column distance from its attachment to the needle |
| LoweringSpec.EmitAll | k2f.mjs:347-351 | the lines are appended in order, only the first carrying the original line; nothing else changes |
| LoweringSpec.Follow | k2f.mjs:386-397 | a carrier keeps its yarn and whether it is in action when it follows the loops |
| LoweringSpec.Retarget | k2f.mjs:384-397 | after a split a carrier in action parked or attached at the needle is parked or attached at the target with its own direction; every other position and every carrier not in action is unchanged |
| LoweringSpec.Form | k2f.mjs:346-401 | writing the instruction keeps the racking, the carrier names and which carriers are in action |
| LoweringPass.Lowering.constructor | k2f.mjs:101-151 | a new pass has the numbered carriers, no loops, racking 0 and no output |
| LoweringPass.Lowering.Write | k2f.mjs:204-211 | appending a line in place does what `Emit` says |
| LoweringPass.Lowering.WriteAll | k2f.mjs:347-351 | the loop emitting one miss per carrier does what `EmitAll` says |
| LoweringPass.Lowering.BringInAll | k2f.mjs:214-228 | the `in` loop passes or fails exactly as `BringInAll`, leaving its state |
| LoweringPass.Lowering.TakeOutAll | k2f.mjs:231-246 | the `out` loop passes or fails exactly as `TakeOutAll`, leaving its state |
| LoweringPass.Lowering.RackTo | k2f.mjs:256-260 | the racking loop in place does what `RackSteps` says |
| LoweringPass.Lowering.Rack | k2f.mjs:247-262 | `rack` passes or fails exactly as `RackLine` |
| LoweringPass.Lowering.WalkCarrier | k2f.mjs:303-322 | the miss loop terminates and leaves the state `Walk` gives |
| LoweringPass.Lowering.StepCarrier | k2f.mjs:311-321 | one iteration turns or moves the carrier two half positions and writes its `miss` |
| LoweringPass.Lowering.SetUp | k2f.mjs:293-325 | back-patching a pending carrier or walking a parked one passes or fails exactly as `SetUp` |
| LoweringPass.Lowering.SetUpAll | k2f.mjs:292-326 | the set-up loop passes or fails exactly as `SetUpAll` |
| LoweringPass.Lowering.YarnLengths | k2f.mjs:336-344 | the annotation loop computes `YarnUses` |
| LoweringPass.Lowering.RetargetCarriers | k2f.mjs:384-397 | the loop over all carriers applies `Retarget` and changes nothing else |
| LoweringPass.Lowering.FormStitch | k2f.mjs:346-401 | writing the instruction and updating the loop table does what `Form` says |
| LoweringPass.Lowering.ParkCarriers | k2f.mjs:403-408 | the final loop parks (and, except for miss, attaches) the listed carriers, as `Park` says |
| LoweringPass.Lowering.Work | k2f.mjs:278-408 | miss/tuck/knit/split pass or fail exactly as `Work` |
| LoweringPass.Lowering.Dispatch | k2f.mjs:214-415 | the operation chain passes or fails exactly as `Dispatch` |
| LoweringPass.Lowering.ProcessLine | k2f.mjs:154-416 | one pass of the per-line loop leaves the state `LineStep` gives, or fails with its message |
| Text.SplitLines | k2f.mjs:21 | `split(/\r?\n/)`: a text always splits into at least one line |
| Text.SplitLinesHaveNoNewlines | fnitout.mjs:91-93 | no line of a split text holds a newline |
| LoweringMain.HeaderFieldParts | k2f.mjs:50-60 | a header line is exactly `;;`, the name, `: `, and the value |
| LoweringMain.ScanHeaders | k2f.mjs:47-82 | the header block ends within the file |
| LoweringMain.HeaderBlock | k2f.mjs:47-58 | every line of an accepted header block is a header, and the line after it, if any, is not |
| LoweringMain.Translate | k2f.mjs:153-417 | a fatal error is reported at a line of the body |
| LoweringMain.ReadHeaders | k2f.mjs:44-82 | the header loop computes `ScanHeaders` |
| LoweringMain.AssignYarns | k2f.mjs:114-130 | numbering succeeds if and only if the names are decimal and strictly increasing from above 0, and then each name stands for its own value |
| LoweringMain.OrderedNext | k2f.mjs:117-120 | an ordered prefix extended by a decimal name above its predecessor stays ordered, and its table gains that name with its own value |
| LoweringMain.TranslateLines | k2f.mjs:153-417 | the per-line loop over the body computes `Translate` |
| LoweringMain.Run | k2f.mjs:21-419 | the whole script gives exactly `Lower`: fatal error with line, thrown exception, or the output text |
| LoweringLemmas.InitialSlotted | k2f.mjs:114-124 | a pass starts with no pending carrier |
| LoweringLemmas.KeepsSlotted | k2f.mjs:223-227 | a step that only extends the output and creates no pending carrier keeps every placeholder in its slot |
| LoweringLemmas.KeepsTransitive | k2f.mjs:204-211 | steps that keep placeholders compose |
| LoweringLemmas.EmitKeeps | k2f.mjs:204-211 | `emit` never disturbs a placeholder |
| LoweringLemmas.BringInAllSlotted | k2f.mjs:218-228 | each new pending carrier's slot is the placeholder just written for it |
| LoweringLemmas.TakeOutAllKeeps | k2f.mjs:231-246 | `out` never disturbs a placeholder |
| LoweringLemmas.RackLineKeeps | k2f.mjs:247-262 | `rack` never disturbs a placeholder |
| LoweringLemmas.PendingSlot | k2f.mjs:296-302 | the back-patch of a pending carrier overwrites exactly its own placeholder with the `in` line, and parks and attaches the carrier just before the needle |
| LoweringLemmas.SetUpSlotted | k2f.mjs:292-326 | setting up a carrier keeps the other placeholders in place |
| LoweringLemmas.SetUpAllSlotted | k2f.mjs:292-326 | setting up all carriers keeps the placeholders in place |
| LoweringLemmas.FormKeeps | k2f.mjs:346-401 | writing the instruction never disturbs a placeholder |
| LoweringLemmas.ParkKeeps | k2f.mjs:403-408 | parking never disturbs a placeholder |
| LoweringLemmas.WorkSlotted | k2f.mjs:278-408 | miss/tuck/knit/split keep the placeholders in place |
| LoweringLemmas.DispatchSlotted | k2f.mjs:214-415 | every operation keeps the placeholders in place |
| LoweringLemmas.LineStepSlotted | k2f.mjs:153-416 | translating a line keeps every pending carrier's placeholder in place |
| LoweringLemmas.TranslateSlotted | k2f.mjs:153-417 | the placeholder invariant holds after every line |
| LoweringLemmas.LowerSlotted | k2f.mjs:223-227 | for a whole file every back-patch finds its placeholder |
| LoweringLemmas.BringInRule | k2f.mjs:218-227 | `in` of a carrier fails if and only if it is unnamed, in or pending; otherwise it becomes pending at the next slot and only a placeholder is written |
| LoweringLemmas.TakeOutRule | k2f.mjs:234-246 | `out` succeeds if and only if the carrier is in; it writes `out` one needle past the attachment and takes the carrier out |
| LoweringLemmas.BringInAllPending | k2f.mjs:214-228 | after an `in` line every named carrier is pending, with one placeholder each |
| LoweringLemmas.BringInAllKeepsPending | k2f.mjs:218-228 | an `in` line leaves carriers that were pending pending |
| LoweringLemmas.WalkMisses | k2f.mjs:303-322 | the walk writes one `miss` per needle step (half the doubled distance), all in the direction of the target and naming the carrier's yarn, after the lines already written |
| LoweringLemmas.WalkArrives | k2f.mjs:303-322 | the walk ends with the carrier parked at the target, with its attachment unchanged |
| LoweringLemmas.WalkSteps | k2f.mjs:308-322 | consecutive walk positions are one needle step apart |
| LoweringLemmas.SynonymsTakeNoCarriers | k2f.mjs:183-195 | `amiss`, `drop` and `xfer` become `tuck +`, `knit +` and `split +` that may list no carriers |
| LoweringLemmas.MissNeedsCarriers | k2f.mjs:289 | a miss without carriers is refused |
| LoweringLemmas.SetUpAllKeepsTables | k2f.mjs:291-326 | setting up carriers never changes the loop table or the racking |
| LoweringLemmas.KnitDecays | k2f.mjs:328-332 | a knit on a needle that holds no loops is exactly a tuck |
| LoweringLemmas.SplitDecays | k2f.mjs:328-332 | a split on a needle that holds no loops is exactly a tuck with the same carriers, without its target |
| LoweringLemmas.SplitReadsAsTuck | k2f.mjs:278-288 | the operands read for a `split` are those read for a `tuck` whose arguments leave out the target, with no target |
| LoweringLemmas.CarrierlessTuck | k2f.mjs:352-354 | a tuck without carriers writes only `; amiss ignored` |
| LoweringLemmas.TuckAddsCount | k2f.mjs:355-360 | a tuck adds the number of carriers to its needle's loop entry; no other entry changes |
| LoweringLemmas.KnitKeepsNeedles | k2f.mjs:361-368 | knit and drop never change a needle's own loop entry (they write the per-bed `undefined` key) |
| LoweringLemmas.SplitMovesCount | k2f.mjs:369-383 | a split adds the needle's count to the target's entry (when they differ), then sets the needle to the number of carriers, or removes it for an xfer, also when needle and target are the same; every other entry is unchanged |
| LoweringLemmas.SplitRetargets | k2f.mjs:384-397 | every carrier in action parked or attached at the needle moves to the target |
| LoweringLemmas.FirstUseLength | k2f.mjs:295-302 | the position a pending carrier is brought in at lies one needle from the stitch |
| LoweringLemmas.SetUpAttachesAt | k2f.mjs:292-326 | setting up any carrier leaves a pending carrier pending or attached just before the needle, and a carrier attached there still attached there |
| LoweringLemmas.SetUpAllAttachesAt | k2f.mjs:292-326 | the same holds after setting up all listed carriers |
| LoweringLemmas.PendingFirstUse | k2f.mjs:296-344 | a carrier pending when the line starts is annotated with yarn length 1 |
| LoweringLemmas.WorkParks | k2f.mjs:403-408 | after miss/tuck/knit/split every listed carrier is parked at the needle, and attached there unless it was a miss |
| LoweringLemmas.RackLineRule | k2f.mjs:247-262 | a fractional racking is fatal; the current racking writes only a comment; any other whole value ends at that racking after one line per unit step |
| LoweringLemmas.WholeRackings | k2f.mjs:249-252 | `2`, `-1`, `+3`, `1.0` and `.0` are whole rackings |
| LoweringLemmas.RefusedRackings | k2f.mjs:249-252 | `0.25` is fractional; `1.` and `x` are not numbers |
| LoweringLemmas.NeedleRoundTrip | k2f.mjs:198-202 | a needle written `f3`/`b-2` reads back as itself |
| LoweringLemmas.KnitoutNeedleExamples | k2f.mjs:198-202 | `f3` and the slider `bs-2` are needles; `f.3`, `x3` and `f` are not |
| LoweringLemmas.FirstLineExists | k2f.mjs:21-35 | a split file always has a first line |
| LoweringLemmas.MagicRequired | k2f.mjs:34-42 | a file is refused at line 1 for its magic string if and only if the first line is not `;!knitout-<digits>` |
| LoweringLemmas.HeaderGauges | k2f.mjs:65-70 | every `Gauge` header in an accepted header block is a number greater than zero |
| LoweringLemmas.HeaderCarriersFound | k2f.mjs:63-64 | a header block with a `Carriers` header, or read after one, yields carrier names |
| LoweringLemmas.HeaderCarriersAbsent | k2f.mjs:63-64 | a header block without a `Carriers` header, read before any, yields no carrier names |
| LoweringLemmas.HeaderRefusal | k2f.mjs:65-70 | a refused header block holds a `Gauge` header whose value is not a number greater than zero, and the refusal is its message |
| LoweringLemmas.GaugeAccepted | k2f.mjs:66 | `15`, `0.5` and `7.` are accepted gauge values |
| LoweringLemmas.GaugeRefused | k2f.mjs:66 | `0`, `0.00`, `.5`, `-3` and `1e3` are refused gauge values |
| LoweringLemmas.CarriersRequired | k2f.mjs:84-87 | without a `Carriers` header the file is refused at the line after the header block |
| LoweringLemmas.OrderedYarns | k2f.mjs:114-124 | numbered carriers have positive, strictly increasing and therefore distinct yarns |
| LoweringLemmas.NamesAreYarns | k2f.mjs:131-141 | a name without leading zeros prints as its own yarn number |
| LoweringLemmas.NumberingRule | k2f.mjs:114-130 | names out of order make the numbering crash; in order, output is written if and only if the body translates |
| FormalSyntax.ParseNeedle | fnitout.mjs:45-49 | reference definition of `parseNeedle`: `f.` or `b.` then a signed decimal index (its properties: `NeedleRoundTrip`, `NeedleExamples`) |
| FormalSyntax.YarnSyntax | fnitout.mjs:151-157 | reference definition of one `(yarn,length)` token (its properties: `ReadYarns`, `YarnIdsDistinct`) |
| FormalSyntax.Grammar | fnitout.mjs:177-214 | reference definition of the fields of each operation (its properties: `ParseFields`, `YarnCounts`, `UnknownOperation`, `LeftoverTokens`) |
| FormalTrace.Step | fnitout.mjs:332-409 | reference definition of one round of `validate` (its properties: the rule lemmas, `StepKeepsValid`, `Apply`) |
| FormalTrace.TuckStep | fnitout.mjs:332-341 | reference definition of `tuck` (its properties: `TuckRule`, `CarrierRule`) |
| FormalTrace.KnitStep | fnitout.mjs:342-351 | reference definition of `knit` (its properties: `KnitRule`, `CarrierRule`) |
| FormalTrace.DropStep | fnitout.mjs:352-358 | reference definition of `drop` (its property: `DropRule`) |
| FormalTrace.SplitStep | fnitout.mjs:359-377 | reference definition of `split` (its properties: `TransferRule`, `CarrierRule`) |
| FormalTrace.MissStep | fnitout.mjs:378-380 | reference definition of `miss` (its property: `MissRule`) |
| FormalTrace.InStep | fnitout.mjs:381-386 | reference definition of `in` (its property: `InRule`) |
| FormalTrace.OutStep | fnitout.mjs:387-390 | reference definition of `out` (its property: `OutRule`) |
| FormalTrace.XferStep | fnitout.mjs:391-401 | reference definition of `xfer` (its properties: `TransferRule`, `XferKeepsLoops`) |
| FormalTrace.RackStep | fnitout.mjs:402-406 | reference definition of `rack` (its property: `RackRule`) |
| Text.Fields | fnitout.mjs:115 | reference definition of splitting at runs of separators (its property: `FieldsHaveNoSeparators`) |
| Text.Tokens | fnitout.mjs:115-118 | reference definition of the tokens of a line, empty first and last pieces dropped |
| LoweringSpec.LineStep | k2f.mjs:153-416 | reference definition of one round of the per-line loop (its properties: `Lowering.ProcessLine`, `LineStepSlotted`) |
| LoweringSpec.Synonym | k2f.mjs:182-195 | reference definition of the synonyms (its property: `SynonymsTakeNoCarriers`) |
| LoweringSpec.ReadNeedle | k2f.mjs:198-202 | reference definition of the knitout `parseNeedle` (its properties: `NeedleRoundTrip`, `KnitoutNeedleExamples`) |
| LoweringSpec.Dispatch | k2f.mjs:213-415 | reference definition of the operation chain (its properties: `Lowering.Dispatch`, `DispatchSlotted`) |
| LoweringSpec.BringIn | k2f.mjs:218-228 | reference definition of `in` for one carrier (its property: `BringInRule`) |
| LoweringSpec.TakeOut | k2f.mjs:234-246 | reference definition of `out` for one carrier (its property: `TakeOutRule`) |
| LoweringSpec.ReadRacking | k2f.mjs:248-252 | reference definition of reading a racking value (its properties: `WholeRackings`, `RefusedRackings`) |
| LoweringSpec.ReadOperands | k2f.mjs:279-289 | reference definition of the operands of miss/tuck/knit/split (its properties: `MissNeedsCarriers`, `SplitReadsAsTuck`) |
| LoweringSpec.Work | k2f.mjs:278-408 | reference definition of miss/tuck/knit/split (its properties: `Lowering.Work`, `WorkParks`, `WorkSlotted`, `KnitDecays`, `SplitDecays`) |
| LoweringSpec.Perform | k2f.mjs:291-408 | reference definition of a stitch once its operands are read (its properties: `SplitPerformsTuck`, `PendingFirstUse`) |
| LoweringSpec.Decayed | k2f.mjs:328-332 | reference definition of the decay to `tuck` (its properties: `KnitDecays`, `SplitDecays`) |
| LoweringSpec.Park | k2f.mjs:403-408 | reference definition of the final parking (its properties: `WorkParks`, `Lowering.ParkCarriers`) |
| LoweringMain.IsMagic | k2f.mjs:36 | reference definition of the magic line (its property: `MagicRequired`) |
| LoweringMain.IsGauge | k2f.mjs:66 | reference definition of an accepted `Gauge` value (its properties: `GaugeAccepted`, `GaugeRefused`, `HeaderGauges`) |
| LoweringMain.Ordered | k2f.mjs:114-124 | reference definition of carrier names in order (its properties: `AssignYarns`, `OrderedYarns`) |
| LoweringMain.Table | k2f.mjs:117-120 | reference definition of the carrier table (its properties: `AssignYarns`, `OrderedNext`) |
| LoweringMain.Lower | k2f.mjs:21-419 | reference definition of the whole script (its properties: `Run`, `MagicRequired`, `CarriersRequired`, `NumberingRule`, `LowerSlotted`) |
| FormalTrace.PhysicalPos | fnitout.mjs:261-264 | reference definition of `physicalPos`: the needle index, plus the racking on the back bed, plus one for `+` (its properties: `CarrierRule`, `OutRule`, `TransferRule`) |
| FormalTrace.TargetError | fnitout.mjs:297-304 | reference definition of `checkTarget`: refused when both needles are on one bed or not aligned at the current racking (its property: `TransferRule`) |
| FormalSyntax.CommentOf | fnitout.mjs:106-112 | reference definition of the comment of a line, the text after its first `;` (its properties: `ParseLine`, `LineAccounted`) |
| FormalSyntax.LineTokens | fnitout.mjs:114-118 | reference definition of the tokens of the code part of a line (its properties: `ParseLine`, `LineAccounted`) |
| FormalSyntax.Kind | fnitout.mjs:106-120 | reference definition of whether a line is blank, parses or is refused (its properties: `ParseLine`, `LineAccounted`) |
| FormalSyntax.TakeDir | fnitout.mjs:125-130 | reference definition of `setDir`, with its two messages (its properties: `ParseFields`, `ReadStitch`, `ReadCarrierOp`) |
| FormalSyntax.TakeNeedle | fnitout.mjs:132-136 | reference definition of `setNeedle` (its properties: `ParseFields`, `ReadStitch`, `ReadBareOp`) |
| FormalSyntax.TakeLength | fnitout.mjs:138-144 | reference definition of `setLength` (its properties: `ParseFields`, `ReadStitch`) |
| FormalSyntax.TakeYarn | fnitout.mjs:163-168 | reference definition of `setYarn` (its properties: `ParseFields`, `ReadCarrierOp`) |
| FormalSyntax.TakeRack | fnitout.mjs:170-175 | reference definition of `setRack` (its properties: `ParseFields`, `ReadBareOp`) |
| LoweringState.Half | k2f.mjs:305-309 | reference definition of a parked position in half-needle units at the given racking (its properties: `HalfIsOdd`, `WalkPath`) |
| LoweringState.Column | k2f.mjs:340-341 | reference definition of a needle's column at the given racking (its property: `YarnDistance`) |
| LoweringState.BodyText | k2f.mjs:227-375 | reference definition of the instruction text of an emitted line (its properties: `Render`, `TakeOutRule`) |
| LoweringState.OutputText | k2f.mjs:419 | reference definition of the written file: the rendered lines joined by newlines, plus a final newline (its property: `Run`) |
| LoweringSpec.Before | k2f.mjs:295 | reference definition of the slot a carrier must reach before a stitch (its properties: `FirstUseLength`, `PendingSlot`) |
| LoweringSpec.StepToward | k2f.mjs:311-320 | reference definition of one `miss` toward the target (its properties: `WalkStep`, `WalkSteps`) |
| LoweringSpec.Walk | k2f.mjs:308-322 | reference definition of the `miss` loop moving a carrier to its slot (its properties: `WalkFollowsPath`, `WalkMisses`, `WalkArrives`) |
| LoweringSpec.BringInAll | k2f.mjs:214-228 | reference definition of `in`/`inhook` over all its carriers (its properties: `BringInAllPending`, `BringInAllSlotted`, `Lowering.BringInAll`) |
| LoweringSpec.TakeOutAll | k2f.mjs:231-246 | reference definition of `out`/`outhook` over all its carriers (its properties: `TakeOutRule`, `TakeOutAllKeeps`, `Lowering.TakeOutAll`) |
| LoweringSpec.RackLine | k2f.mjs:247-262 | reference definition of `rack` (its properties: `RackLineRule`, `Lowering.Rack`) |
| LoweringMain.HeaderField | k2f.mjs:50-60 | reference definition of splitting a `;;Name: value` line at its first `: ` (its properties: `HeaderFieldParts`, `HeaderBlock`) |

## Left out

- Command-line handling, file reading and writing, console warnings and log messages are not modelled. This includes the version warning, unknown-header warnings, the gauge report and the mapping report. `Run` takes the lines of the file, and `Lower` returns the output text.
- `fnitout.mjs`'s command-line driver (from line 426) is not part of this model.
- `Instruction.toString` and `MachineState.toString` are not modelled. `MachineState.copy` is not modelled as an operation: states are values, so the copy taken at the start of each `validate` round is the value itself.
- `MachineState.copy` (fnitout.mjs:59-66) is shallow: the new state shares the attachment records of the old one. `moveAttachments` edits a shared record's needle in place (fnitout.mjs:310), so a `split` or `xfer` also changes the attachments of earlier states already in the trace. The model deliberately keeps every recorded state as it was when recorded: `Retargeted` builds new records, and the trace of `Validate` is the one `Replay` gives.
- FormalSyntax.ParseLine: the grammar fixes whether a line parses and what it yields, but not the text of each parse error's message. The messages are written as the source writes them, but no contract pins them.
- Lengths in `fnitout.mjs` are JavaScript numbers. `Number(text)` with `isFinite` is the parameter `num`, so number syntax and floating-point rounding are not modelled.
- Yarn ids and needle indices are unbounded integers. `parseInt` above 2^53 loses precision in the source, and the model ignores that.
- `k2f.mjs` reads rackings and gauges with `parseFloat`. The model reads them exactly, so a token such as `1.0000000000000000001`, which rounds to a whole number in floating point, is fractional here.
- The `Gauge` value is only checked. Its default of 15 and its value are used only in log messages.
- Both programs use JavaScript objects as maps, so `in` also sees prototype keys. A carrier name such as `toString` would count as named there. The model uses real maps, where it does not.
- Carrier positions are edited in place in the source: the walk changes `parked.direction` and `parked.index` (k2f.mjs:313-320), and a split changes `attached.bed/index` and `parked.bed/index` (k2f.mjs:390-395). After a back-patch `parked` and `attached` are the same object (k2f.mjs:300-301), so such an edit could move both. The model keeps them as two values, which gives the same result: the shared position lies one needle off the stitch needle, so the split's retarget in the same line never matches it; a carrier listed twice walks zero steps the second time; and k2f.mjs:406-407 gives the carrier new positions before the line ends.
- LoweringState.Render: padding to 30 columns counts characters (Unicode scalar values), while the source's `op.length` (k2f.mjs:206) counts UTF-16 code units. The direction token is written unchecked (k2f.mjs:238, 350, 356, 366, 375), so a body holding a character outside the Basic Multilingual Plane can get up to one more space per such character in the model than in the source.
- FormalSyntax.Parse takes the program as a sequence of lines; the string form of `parse` (fnitout.mjs:91-93) is `FormalSyntax.ParseText`, which splits at `\r?\n` with `Text.SplitLines` first.
- LoweringSpec.ReadOperands: when the direction or the needle token is missing, the source throws a `TypeError` from inside `parseNeedle`. The model reports this as the fatal message `TypeError: missing operand`.
- LoweringMain.Lower: the thrown `Gauge` string and the `ReferenceError` raised by the carrier-remapping branch (it names an undefined variable) are modelled as `Thrown` outcomes with those messages. The remapping the branch was meant to do is not modelled.
- The direction token of miss/tuck/knit/split is not validated by the source. The model keeps it as a string and, as the source does, treats anything other than `+` as the `-` side.
- `knit` and `drop` update the loop table under the key `<bed>.undefined`, because they read a field the needle does not have. The model keeps this as the per-bed key `LoopKey.Undefined`, so later decay decisions match the source.
- An emitted `split` with carriers omits its target needle, as the source writes it. Emitted lines are not checked against the formal-knitout grammar.
- The translation decays `split` on an empty needle to `tuck`, as the code does, not to `xfer`. The model follows the code.
- The back-patch in `Lowering.SetUp` writes the slot only when its index is inside the output. `LoweringLemmas.PendingSlot` proves that this guard always holds.
- The `console.assert` checks of the miss walk and of split are lemmas here rather than run-time checks. The walk never reversing is covered by `WalkMisses` (every `miss` of a walk has the one direction of the target) and by the ensures of `WalkPath` (each position is one step further toward the target). The split check is the precondition of `Form`, which `Work` meets because of the decay.
- There is no lemma connecting the two programs: nothing proves that the output of the translation passes `validate`.
- `stitch`, `x-stitch-number`, `x-presser-mode`, `x-speed-number`, `pause`, `releasehook` and other `x-` extensions are checked for their argument shape where the source checks it, and otherwise ignored, as in the source.
