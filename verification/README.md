# Jsonnet in Rust: verified models of the parts where a fast form must agree with a simple one

This project models the core of a Jsonnet implementation and proves that its fast or stateful parts
do what a simple description of the language says. `dafny verify dfyconfig.toml` checks all of it.

**Names and closures.** The analyser makes one pass over an expression. It replaces every name by a
slot (a cell of the enclosing frame, or an entry of the closure's capture pack) while it extends the
capture lists of a mutable stack of closure frames (`Analyzer`, a class; its state as a value is in
`AnalyzerState`, `CaptureStack` and `NameStacks`). What a correct resolution is stands in
`Resolution`, independently of the algorithm. A machine with packed contexts, once-filled cells and
shared object frames runs the result (`Packed`). The reference is a by-name evaluator that looks names
up in environments (`ByName`). `Simulation` relates the two, `Weakening` removes the only liberty the
simulation takes (evaluating a source without the iteration variables it does not mention),
`CaptureOrder`, `FirstUse` and `CaptureWalks` say in which order closures capture, and `SafeSources`,
`Punctual` and `EarlySources` say when two shortcuts of the evaluator are harmless. `Programs` puts
analysis and evaluation together; `Disagreements` holds the programs for which they differ.
`Inheritance` and `LanguageLaws` tie the reference to the language: which layer of an object a field is
read from, what `self`, `super` and `$` are, and what names, calls, choices and comprehensions mean.
`Siblings` and `SiblingMentions` are the dependency analysis between the bindings of one frame.

**Syntax trees.** Markers patch a flat event list after the fact; the sink replays it out of order and
puts trivia in (`Events`, `SyntaxTrees`, `EventParser`, `Sink`). `GreenTrees` says which tree a sequence
of builder calls describes, `Placement` where trivia goes and what errors cover, and `TreeBuilding` that
it is the tree the parser recognised.

**Expressions and text.** `Pratt` is the operator parser with a printer that inserts as few parentheses
as possible, and `Precedence` says which trees it builds by a list of tiers instead of binding powers.
`Escapes`, `Json` and `TextBlocks` are string escapes, JSON output and text blocks, over `Text` (UTF-8);
`JsonLayout` describes the layouts of JSON output by a walk over the text.

**State machines and shared state.** `Thunks` are memoised thunks with detection of re-entry,
`AsyncImports` the import worklist, `Interner` the reference-counted string pool, `PreparedImports` the
bounded cache of lowered files, `ImportedPrograms` what an import gives with the analyzer behind that
cache, `Sets` the sorted-array set operations.

A grammatical program is one whose comprehensions start with a `for`, as the parser ensures
(crates/jrsonnet-ir-parser/src/lib.rs:601-614). Fuel bounds the depth of calls, field accesses and
forced thunks in both evaluators in the same way, and running out is an outcome of its own, so equality
for all fuel is equality of what terminates. Numbers are integers or opaque tokens. Depths saturate at
`u32::MAX`, the width in which the source stores them. Files and the network are parameters
(`AsyncImports.Host`).

## Findings

Where the code differs from what it is for, the model keeps the code, a lemma gives the input, and the
exact condition is proved.

| what happens | input | when exactly |
|---|---|---|
| A comprehension element that is just a name is read in the iteration context with a slot that was resolved inside the element's own closure (crates/jrsonnet-evaluator/src/evaluate/compspec.rs:56-58 and 81-83). | `(local y = 1, z = true; [y for x in [0] if z])[0]` gives `true` instead of `1`: `Disagreements.AnalyzeShortcut` runs the analyser on it. | One slot: `Disagreements.ShortcutExact`. Whole programs: the analyser's output is safe if and only if the source satisfies `SafeProgram`, which asks that what follows the last `for` mentions the element before any other outside name (`Programs.AnalyzeRoot`, `Programs.CompiledSafe`). |
| Sources that do not depend on the comprehension's variables are evaluated before the loop, also when the loop never reaches them (compspec.rs:228-262). | `[1 for x in [] for y in error null]` fails: `Disagreements.AnalyzeEager` runs the analyser on it. | Which sources these are: `CompFrames.HoistedIff`. When they stop a comprehension: `EarlySources.StopsExactly`. Whole programs: never, if no source after the first is marked invariant (`Programs.CompiledMeans`). |
| A binding that mentions an earlier sibling does not inherit what that sibling depends on through later ones (crates/jrsonnet-evaluator/src/analyze.rs:1127-1133). | `local a = c, b = a, c = v;`: `SiblingMentions.MissedExample`. | `SiblingMentions.RecordSuffices` and `RecordMisses`: exactly when everything a value refers to is reached by references forwards first and backwards then. What is missed reaches only warnings and how eagerly sources are hoisted; hoisting stays sound whatever is known about siblings (`CompFrames.HoistSound`). |
| After an import run that failed, a later run reports success and still leaves an import unresolved, because a parsed file is not visited again (crates/jrsonnet-evaluator/src/async_import.rs:91-169). | `AsyncImports.RetryMisses` | From a closed store the result is closed (`AsyncImports.Importer.AsyncImport`), and then nothing is missed (`AsyncImports.NoMiss`). |
| Replacing a cached file by a longer version can evict the new version itself, because it keeps its old place in the queue (crates/jrsonnet-evaluator/src/prepared_import.rs:63-99). | `PreparedImports.ReplacementEvictsItself` | `PreparedImports.Retained`: a file stays exactly when it fits together with all files queued behind it. A file new to the cache stays whenever it fits on its own (`PreparedImports.NewStays`). |
| `\x` escapes shift the first digit by 8 bits instead of 4 (crates/jrsonnet-lexer/src/string.rs:52-57). | `\x41` reads as U+0401 | `Escapes.HexExact`: right exactly when the first digit is 0. |
| The error of a node that ends in an empty node covers the trivia before that empty node, because trivia is put in before every node is entered (crates/jrsonnet-rowan-parser/src/event.rs:80-82). | A node of one token, a blank and an empty node, all inside another node. | `Placement.EmptyEnds`: exactly when trivia follows the last proper lexeme. Every other node inside the root begins and ends with a proper lexeme (`Placement.ProperEnds`). |
| A prefix operator binds no tighter than multiplication (crates/jrsonnet-ir-parser/src/lib.rs:947-951). | `-x * y` is `-(x * y)`: `Pratt.PrefixTie` | The printer accounts for it (`Pratt.RoundTrip`). |

## Model

| member | source | states |
|---|---|---|
| Programs.CompiledMeans | crates/jrsonnet-evaluator/src/analyze.rs:2149-2178 | End to end: whatever the analyser makes of a safe program, run on the packed machine with what it makes of safe externals, gives the outcome of by-name evaluation of the source for every fuel, or stops on a source evaluated ahead of its loop; the same of every element and field of the value and of every call of its functions, in any nesting; it never stops early if no source after the first is marked invariant |
| Programs.AnalyzeRoot | crates/jrsonnet-evaluator/src/analyze.rs:2149-2178 | A result is handed on if and only if the program is well formed (no unbound name, no `self`/`super`/`$` outside objects, no name bound twice in a frame); it is a correct resolution, every closure captures its outside names in the order of first mention, and for grammatical programs it is safe exactly when the source is; the root closure captures nothing |
| Programs.CompiledSafe | crates/jrsonnet-evaluator/src/evaluate/compspec.rs:43-85 | Of any lowering that resolves correctly and captures in walking order, the bare element shortcut is sound exactly when the source satisfies the condition on names |
| Programs.ClosureConversion | crates/jrsonnet-evaluator/src/analyze.rs:1054-1135 | Any correct resolution, however its captures are ordered, preserves meaning if it passes the shortcut test, as seen through any sequence of element and field accesses and calls; the machine never reads an unfilled cell or a slot out of range |
| Inheritance.FindLayerIs | crates/jrsonnet-evaluator/src/obj/mod.rs:346-372 | A field read below some layer is that of a layer `l` below it that defines the field while none in between does, and is missing exactly when none does |
| Inheritance.OwnField | crates/jrsonnet-evaluator/src/obj/mod.rs:849-877 | `(e { f: v }).f` is `v`, with the whole object as `self` and the layers of `e` as `super` |
| Inheritance.InheritedField | crates/jrsonnet-evaluator/src/obj/mod.rs:849-877 | A field the extension does not define is the member that `e.f` reads, with the whole object as `self` |
| Inheritance.NoSuchField | crates/jrsonnet-evaluator/src/obj/mod.rs:849-877 | A field that neither defines is an error |
| Inheritance.MemberSees | crates/jrsonnet-evaluator/src/obj/mod.rs:846-877 | In a member, `self` is the whole object and `super.f` reads only from the layers below the member's own |
| Inheritance.SuperAsValue | crates/jrsonnet-evaluator/src/obj/mod.rs:503-541 | `super` as a value has the same fields, with the same outcomes, as `super` in front of a name |
| Inheritance.DollarSees | crates/jrsonnet-evaluator/src/analyze.rs:1219-1297 | `$` is the outermost object around a member |
| Inheritance.CompiledDot | crates/jrsonnet-evaluator/src/obj/mod.rs:346-372 | The packed machine, running compiled code, reads every field from the layer these laws say |
| Inheritance.CompiledField | crates/jrsonnet-evaluator/src/obj/mod.rs:849-877 | The laws for own and inherited fields hold of compiled extensions run on the packed machine |
| LanguageLaws.LocalName | crates/jrsonnet-evaluator/src/evaluate/mod.rs:141-149 | `local` binds a name to its last binding, evaluated where all of them are in scope |
| LanguageLaws.CalledName | crates/jrsonnet-evaluator/src/function/mod.rs:70-104 | A parameter is the argument in its place, else its default, evaluated where all parameters are in scope |
| LanguageLaws.LoopJoins | crates/jrsonnet-evaluator/src/evaluate/compspec.rs:43-85 | A loop gives, in the order of the elements, what the rest of the comprehension gives for each |
| LanguageLaws.CompKeeps | crates/jrsonnet-evaluator/src/evaluate/compspec.rs:43-85 | `[v for x in a if c]` is one element for each item that satisfies `c`, in order, with `x` bound to the item |
| SafeSources.SafeIff | crates/jrsonnet-evaluator/src/evaluate/compspec.rs:56-58 | The same equivalence for every expression, scope and context, by induction over the language |
| SafeSources.ElementSlot | crates/jrsonnet-evaluator/src/analyze.rs:1005-1034 | The closure of a bare element captures that name and nothing else, so its slot is capture 0, or a local of the frame |
| Simulation.SimEval | crates/jrsonnet-evaluator/src/evaluate/mod.rs:224-330 | One step of the simulation: in related contexts the machine and the by-name evaluator give related outcomes and the heap typing only grows |
| Simulation.SimHoisted | crates/jrsonnet-evaluator/src/evaluate/compspec.rs:228-262 | A source evaluated outside the comprehension gives what it would give inside, without the variables it does not mention |
| Simulation.StandaloneRel | crates/jrsonnet-evaluator/src/obj/mod.rs:503-541 | `super` as a value is the layers below, whose members go on seeing the object they came from |
| Weakening.LeanIsFull | crates/jrsonnet-evaluator/src/analyze.rs:1993-2005 | Evaluating every comprehension source outside the variables it does not mention gives the same outcomes as evaluating it where it stands |
| Weakening.LookupSim | crates/jrsonnet-evaluator/src/ctx.rs:156-192 | A name means the same in two environments that differ only in iteration variables not needed for it |
| Punctual.ExecOk | crates/jrsonnet-evaluator/src/evaluate/compspec.rs:228-262 | Code without an invariant source after the first one never stops early, in any heap and context that hold only such code |
| EarlySources.StopsExactly | crates/jrsonnet-evaluator/src/evaluate/compspec.rs:228-262 | The sources evaluated ahead all come to arrays exactly when each of them does by name and stops nowhere inside; the run stops early exactly when some source, all before it having passed, stops inside, or is not the first and does not come to an array |
| EarlySources.OneSource | crates/jrsonnet-evaluator/src/evaluate/compspec.rs:236-245 | One source evaluated ahead, after the ones before it came to arrays, comes to an array exactly when it does by name in the loop |
| Disagreements.ShortcutExact | crates/jrsonnet-evaluator/src/evaluate/compspec.rs:56-58 | Reading the element in the iteration context is right exactly when the slot is a local of the frame or the closure passes that very capture through in place |
| Disagreements.ShortcutForced | crates/jrsonnet-evaluator/src/analyze.rs:1060-1093 | The sample program has one correct lowering with captures in walking order |
| Disagreements.ShortcutWrong | crates/jrsonnet-evaluator/src/evaluate/compspec.rs:81-83 | That lowering evaluates to the guard although the program means 1 |
| Disagreements.AnalyzeShortcut | crates/jrsonnet-evaluator/src/analyze.rs:2149-2178 | The analyser accepts the sample program, and what it returns is unsafe and evaluates to the wrong value |
| Disagreements.EagerSurprise | crates/jrsonnet-evaluator/src/evaluate/compspec.rs:228-262 | Every correct lowering of the sample program with captures in walking order stops on a source that by-name evaluation never reaches |
| Disagreements.AnalyzeEager | crates/jrsonnet-evaluator/src/analyze.rs:1993-2005 | The analyser accepts the sample program and marks both sources invariant, and what it returns stops although the program means `[]` |
| FrameSetup.FillBindsIs | crates/jrsonnet-evaluator/src/evaluate/destructure.rs:177-188 | Filling the cells of a letrec group succeeds although each closure is packed while later cells are empty, and leaves exactly the group in its cells |
| FrameSetup.EnterRec | crates/jrsonnet-evaluator/src/evaluate/mod.rs:141-149 | Entering a `local`: the new frame stands for the recursive environment, and no cell is read before it is filled |
| FrameSetup.EnterCall | crates/jrsonnet-evaluator/src/function/mod.rs:70-104 | Entering a function: cells hold the arguments, then the defaults, and stand for the call environment |
| FrameSetup.MemberRel | crates/jrsonnet-evaluator/src/evaluate/destructure.rs:193-224 | Entering a member: a late bound layer gets a fresh frame whose cell 0 is the object, or the object the layer is pinned to; the others share one frame among all objects they become a layer of |
| ResolutionLaws.ResGrows | crates/jrsonnet-evaluator/src/analyze.rs:1060-1093 | A slot issued once keeps denoting the same binder however many captures are appended later |
| ResolutionLaws.ResHoled | crates/jrsonnet-evaluator/src/analyze.rs:1254-1297 | Members that never mention their object resolve just as well without its cell |
| ResolutionLaws.ResMoves | crates/jrsonnet-evaluator/src/analyze.rs:1036-1049 | Resolution depends on scope and enclosing object only through the names mentioned |
| Analyzer.AnalysisStack.ResolveAt | crates/jrsonnet-evaluator/src/analyze.rs:1060-1093 | The slot reads the target; every frame from there outwards has captured it at the end of its list if it lies below the frame and was not captured yet, and no other list changes; a local of the frame the code runs in is never captured |
| Analyzer.AnalysisStack.UseLocal | crates/jrsonnet-evaluator/src/analyze.rs:1115-1136 | A name resolves to its innermost binder or is an error; the taint stays within a depth exactly if it did before, the binder is further out, and so is everything its value is known to depend on |
| Analyzer.AnalysisStack.Analyze | crates/jrsonnet-evaluator/src/analyze.rs:1395-1573 | The shared contract: scope, depth and frames are restored, captures grow by exactly the outside names in the order of first mention, the usage flags record exactly which of `self`, `super` and `$` occur, an error is recorded exactly when the piece is ill formed, and otherwise the result resolves it; the taint stays within a depth around the piece exactly if the piece mentions no local of its own and every other local it mentions, with what that is known to depend on, lies further out; nothing new is noted about the frames around |
| Analyzer.AnalysisStack.AnalyzeBinds | crates/jrsonnet-evaluator/src/analyze.rs:1623-1661 | The values of a frame: with distinct names one value per binder in slot order, and a record of groups that decodes to them |
| Analyzer.AnalysisStack.AnalyzeValue | crates/jrsonnet-evaluator/src/analyze.rs:1636-1655 | What a value depends on is found separately, stored with its binder as known from then on, and merged into the taint of what contains it |
| Analyzer.AnalysisStack.AnalyzeLocal | crates/jrsonnet-evaluator/src/analyze.rs:1575-1595 | `local`: what the frame binds is not captured outside it |
| Analyzer.AnalysisStack.AnalyzeFn | crates/jrsonnet-evaluator/src/analyze.rs:1663-1739 | Functions: defaults see all parameters, and a lone parameter returned as it is becomes the identity |
| Analyzer.AnalysisStack.AnalyzeObj | crates/jrsonnet-evaluator/src/analyze.rs:1811-1889 | Objects: `late` exactly when a member mentions `self` or `super`, or `$` in an outermost object |
| Analyzer.AnalysisStack.AnalyzeOver | crates/jrsonnet-evaluator/src/analyze.rs:1993-2005 | A source is hoisted if and only if it mentions no local of its own and every other local it mentions lies outside the comprehension, with all its value is known to depend on; a hoisted one mentions no earlier variable, and the second walk captures nothing new |
| Analyzer.AnalysisStack.AnalyzeSpecs | crates/jrsonnet-evaluator/src/analyze.rs:1966-2139 | Comprehensions: each variable has a frame, conditions and value follow in order |
| Analyzer.AnalysisStack.DefineLocal | crates/jrsonnet-evaluator/src/analyze.rs:475-500 | A second local of the same name in one frame is an error and gets no slot |
| Analyzer.AnalysisStack.FinishBody | crates/jrsonnet-evaluator/src/analyze.rs:735-771 | Draining a frame takes its locals and exactly their ids off the name stacks |
| Analyzer.AnalysisStack.ReanalyzeInOuterClosure | crates/jrsonnet-evaluator/src/analyze.rs:1036-1049 | Analysis outside the inner frames, with the error flag and the inner frames put back |
| CaptureStack.AddCaptureOk | crates/jrsonnet-evaluator/src/analyze.rs:1078-1092 | Appending a capture keeps the stack well formed: every capture has a source below that denotes it, and all captured ids lie below the frame |
| CaptureStack.ShapeOfTop | crates/jrsonnet-evaluator/src/analyze.rs:1025-1034 | The shape a frame leaves behind denotes, in the frame below, exactly what the frame captured |
| CompFrames.HoistSound | crates/jrsonnet-evaluator/src/analyze.rs:1993-2005 | A source that passes the invariance test mentions no variable of the comprehension, and everything it mentions resolves from outside |
| CompFrames.HoistedIff | crates/jrsonnet-evaluator/src/analyze.rs:1993-1997 | The depth test on the taint of a source passes exactly when the source can be hoisted, told from the source and what is known of the locals around it |
| CompFrames.HoistedTurn | crates/jrsonnet-evaluator/src/analyze.rs:1999-2004 | Walking a hoisted source again outside adds no capture anywhere |
| FirstUse.WalkedFrame | crates/jrsonnet-evaluator/src/analyze.rs:1025-1034 | Leaving a frame: the frames below have captured, in order, what the frame does not bind, and so has the frame |
| FirstUse.CapturedUnder | crates/jrsonnet-evaluator/src/analyze.rs:1078-1092 | An id captured at one level is captured at every level below that does not bind it |
| CaptureOrder.TakenTwice | crates/jrsonnet-evaluator/src/analyze.rs:1036-1049 | A second walk over the same mentions captures nothing more |
| NameStacks.StacksOf | crates/jrsonnet-evaluator/src/analyze.rs:723-745 | Each name's stack is the increasing list of its live ids, the innermost last |
| ObjectFrames.ObjRes | crates/jrsonnet-evaluator/src/analyze.rs:1219-1297 | An object whose members do not look at it resolves without its own cell, otherwise with it |
| Siblings.PropagateAll | crates/jrsonnet-evaluator/src/analyze.rs:664-675 | The dependency loop terminates, and its answer covers the start, inherits along every reference and takes every component from a reachable sibling |
| Siblings.LeastFixpoint | crates/jrsonnet-evaluator/src/analyze.rs:664-675 | An assignment with these three properties is the least that covers the start and inherits along every recorded reference |
| Siblings.JoinOverReachable | crates/jrsonnet-evaluator/src/analyze.rs:664-675 | It covers every sibling reachable from a binding, and the depth of those referred to |
| Siblings.MarkUsed | crates/jrsonnet-evaluator/src/analyze.rs:713-733 | The use loop terminates; marks only move down, along references, from where they were |
| Siblings.UsedIffReached | crates/jrsonnet-evaluator/src/analyze.rs:713-733 | A local ends up used exactly when a used binding reaches it |
| Siblings.PushThenIter | crates/jrsonnet-evaluator/src/analyze.rs:843-862 | Recording a group and decoding the flat record gives the group after the ones before it |
| SiblingMentions.Dependencies | crates/jrsonnet-evaluator/src/analyze.rs:1623-1655 | Values analysed in order, mentions of finished siblings settled at once and the others recorded, then the loop: the answer solves the record |
| SiblingMentions.RecordSuffices | crates/jrsonnet-evaluator/src/analyze.rs:1127-1133 | The answer is the least solution of all references when every reference is met forwards first and backwards then |
| SiblingMentions.RecordMisses | crates/jrsonnet-evaluator/src/analyze.rs:1127-1133 | Otherwise, whatever else the frame contains, what some referenced sibling depends on is not passed on |
| SiblingMentions.NothingSpurious | crates/jrsonnet-evaluator/src/analyze.rs:1127-1133 | No dependency is reported that is not there |
| SiblingMentions.MissedExample | crates/jrsonnet-evaluator/src/analyze.rs:1127-1133 | The sample frame violates the condition |
| TreeBuilding.BuildTree | crates/jrsonnet-rowan-parser/src/event.rs:70-186 | For a parse that has finished its root and read all lexemes: without trivia the tree is exactly the one the parser recognised, its leaves are all lexemes, each once and in order, and trivia keeps its kind; no node but the root begins or ends with trivia, so trivia between two things belongs to the node around both; errors are those of the nodes finished with one, in order, and each covers its node's lexemes from the start of the first to the end of the last, or the empty range before the next lexeme; the root's begins with the first proper lexeme and ends with the text, or before the trivia if the root was wrapped in place |
| Sink.TreeSink.EndNode | crates/jrsonnet-rowan-parser/src/event.rs:130-170 | A node below the root is never left right after trivia, and trailing trivia goes into the root, before or after its range is taken |
| Placement.ProperEnds | crates/jrsonnet-rowan-parser/src/event.rs:70-186 | A node with lexemes inside the root begins with a proper lexeme, and ends with one unless it ends in an empty node |
| Placement.EmptyEnds | crates/jrsonnet-rowan-parser/src/event.rs:80-82 | One that ends in an empty node ends with a proper lexeme exactly if no trivia follows its last proper one |
| Sink.TreeSink.Replay | crates/jrsonnet-rowan-parser/src/event.rs:70-186 | The first call enters the root, all others are made inside it and the last leaves it; every node is entered and left once in order; no unreachable branch is met |
| GreenTrees.OneTree | crates/jrsonnet-rowan-parser/src/event.rs:180-186 | Calls that stay inside one node and close it describe one tree |
| GreenTrees.BaresInjective | crates/jrsonnet-rowan-parser/src/event.rs:70-186 | A tree can be told from its calls |
| EventParser.Parser.Complete | crates/jrsonnet-rowan-parser/src/marker.rs:47-82 | Completing a marker turns it and what followed into one node |
| EventParser.Parser.Forget | crates/jrsonnet-rowan-parser/src/marker.rs:115-128 | Dropping a marker leaves its contents in the node around it |
| EventParser.Parser.Precede | crates/jrsonnet-rowan-parser/src/marker.rs:130-143 | A new node is opened around a completed one by patching a forward link |
| EventParser.Parser.Wrap | crates/jrsonnet-rowan-parser/src/marker.rs:145-179 | A completed node is wrapped in place by patching both ends |
| EventParser.Parser.WrapToHere | crates/jrsonnet-rowan-parser/src/parser.rs:347-353 | Preceding a node and completing at once, as for a binary operator, puts one node around it and everything after it |
| EventParser.Parser.BumpRemap | crates/jrsonnet-rowan-parser/src/parser.rs:173-178 | A token joins the innermost open node |
| Events.PatchedMeaning | crates/jrsonnet-rowan-parser/src/marker.rs:145-179 | What patching links does to the meaning of the whole list |
| TreeBuilding.FinishedParse | crates/jrsonnet-rowan-parser/src/parser.rs:102-115 | A parse that finished its root leaves a list without pending events that means the root, with all its tokens |
| Pratt.ParseIff | crates/jrsonnet-ir-parser/src/lib.rs:1011-1041 | The parser accepts exactly the token sequences of grouped trees and returns that tree |
| Pratt.Unambiguous | crates/jrsonnet-ir-parser/src/lib.rs:947-1041 | At most one grouped tree has given tokens |
| Pratt.RoundTrip | crates/jrsonnet-ir-parser/src/lib.rs:947-1041 | Printing with parentheses only where the binding powers need them and parsing gives the expression back |
| Pratt.FewestParens | crates/jrsonnet-ir-parser/src/lib.rs:947-1041 | No source with fewer parentheses parses to the expression, so none of the printed ones can be removed |
| Pratt.PrefixTie | crates/jrsonnet-ir-parser/src/lib.rs:947-951 | A minus before a product applies to the product |
| Pratt.Parser.ExprBp | crates/jrsonnet-ir-parser/src/lib.rs:1011-1041 | The loop over an offset computes the recursion, and its stopping point |
| Pratt.ParseSource | crates/jrsonnet-ir-parser/src/lib.rs:1011-1041 | A source parses if and only if it is the text of a grouped tree, and to that tree; which trees of operands and operators those are is said by `Precedence.ParsesIff` |
| Precedence.ParsesIff | crates/jrsonnet-ir-parser/src/lib.rs:953-971 | Told by a list of tiers: a tree of operands, prefix and binary operators is what its tokens parse to exactly if tighter operators are further in, equal ones group to the left, and prefix operators stand before the tightest tier |
| Precedence.TwoOperators | crates/jrsonnet-ir-parser/src/lib.rs:953-971 | `x p y q z` is `x p (y q z)` exactly when the tier of `q` is tighter than that of `p`, and `(x p y) q z` otherwise |
| Precedence.PrefixThenOperator | crates/jrsonnet-ir-parser/src/lib.rs:947-951 | A prefix operator takes a whole product, and nothing of a looser operation |
| Precedence.ParseTwo | crates/jrsonnet-ir-parser/src/lib.rs:1011-1041 | Parsing such a source gives the expression the tiers say |
| Thunks.Thunk.Get | crates/jrsonnet-evaluator/src/val.rs:58-84 | Forcing runs each closure at most once, leaves nothing waiting, and gives the by-name answer, an error for a thunk that is being forced already |
| Thunks.Demand | crates/jrsonnet-evaluator/src/val.rs:58-84 | Outermost: nothing is left being forced, and the result is the error for recursion exactly when by-name evaluation never ends |
| Thunks.AnswerUnique | crates/jrsonnet-evaluator/src/val.rs:58-84 | At most one result answers a closure |
| Thunks.Cycle | crates/jrsonnet-evaluator/src/val.rs:58-84 | A thunk that needs itself through others has no by-name value |
| AsyncImports.Importer.AsyncImport | crates/jrsonnet-evaluator/src/async_import.rs:91-169 | The worklist terminates on every finite import graph; on success from a closed store it leaves the store closed; a failure names the import or file and the store says why |
| AsyncImports.NoMiss | crates/jrsonnet-evaluator/src/async_import.rs:69-77 | In a closed store no chain of imports misses, and an expression import ends in a file that is parsed or does not parse |
| AsyncImports.ImportAll | crates/jrsonnet-evaluator/src/async_import.rs:91-169 | After a successful run from a closed store, every import the parser finds in the text of a file that evaluation can reach is in the table |
| AsyncImports.RetryMisses | crates/jrsonnet-evaluator/src/async_import.rs:91-169 | After a failed run a successful one can leave a miss |
| Interner.Run | crates/jrsonnet-interner/src/lib.rs:118-193 | Any program of operations sees the strings it would see without interning; handles point to the same block exactly when their bytes are equal; with the last handle nothing is left; it gets through whenever it has fewer than 2^31 - 2 operations and every string is shorter than 2^32 bytes |
| Interner.Canonical | crates/jrsonnet-interner/src/inner.rs:151-153 | Handles are equal exactly when their bytes are |
| Interner.StrIsUtf8 | crates/jrsonnet-interner/src/inner.rs:98-104 | A string handle's bytes are valid UTF-8 and flagged so |
| Interner.NothingLeft | crates/jrsonnet-interner/src/lib.rs:169-193 | Nothing outlives its last handle |
| Interner.Interner.InternBytes | crates/jrsonnet-interner/src/lib.rs:278-291 | A handle to the one block with these bytes, new exactly if they were not pooled; it panics exactly if the pooled block's count is full, or a new string is too long, and then changes nothing |
| Interner.Interner.InternStr | crates/jrsonnet-interner/src/lib.rs:293-297 | A string handle to that block, flagged as UTF-8; it needs room for two more holders for a while and panics exactly without |
| Interner.Interner.Another | crates/jrsonnet-interner/src/inner.rs:141-149 | Every block's count stays its live handles plus one for the pool; one more handle is refused exactly when the count would reach the flag bit |
| Interner.Interner.CastStr | crates/jrsonnet-interner/src/lib.rs:120-127 | Fails exactly on invalid UTF-8, panics exactly on valid UTF-8 with a full count, and uses the byte handle up otherwise |
| Interner.Interner.Drop | crates/jrsonnet-interner/src/lib.rs:164-193 | The last handle takes the block out of the pool and frees it; no other does |
| Interner.Interner.CheckUtf8 | crates/jrsonnet-interner/src/inner.rs:106-124 | The flag is set exactly when the bytes are valid |
| Text.Utf8Exact | crates/jrsonnet-interner/src/inner.rs:106-124 | Bytes are valid exactly if they are the UTF-8 encoding (section 3 of RFC 3629) of some text |
| PreparedImports.Cache.Insert | crates/jrsonnet-evaluator/src/prepared_import.rs:63-99 | Keys equal the queue, the byte count is exact, both bounds hold, and the shortest prefix is evicted |
| PreparedImports.Cache.Get | crates/jrsonnet-evaluator/src/prepared_import.rs:52-62 | A hit is exactly an entry of the same code and externals |
| PreparedImports.Retained | crates/jrsonnet-evaluator/src/prepared_import.rs:84-98 | A file stays exactly when it fits together with everything queued behind it |
| PreparedImports.NewStays | crates/jrsonnet-evaluator/src/prepared_import.rs:63-99 | A file new to the cache stays whenever it fits on its own |
| PreparedImports.ReplacementEvictsItself | crates/jrsonnet-evaluator/src/prepared_import.rs:63-99 | A replaced file can evict itself |
| PreparedImports.State.Prepare | crates/jrsonnet-evaluator/src/lib.rs:403-504 | A file is remembered exactly if it was or its text could be loaded, and then the import gives what parsing and analysing that text again would give; it parses exactly once, or not at all if the lowered code is remembered here or in the shared cache or the file was parsed before |
| ImportedPrograms.PrepareProgram | crates/jrsonnet-evaluator/src/lib.rs:403-504 | With an analyzer that keeps the contract of `Programs.AnalyzeRoot`: an import succeeds exactly when its text parses and the program is well formed under the names of the externals, and the code it gives, remembered, cached or fresh, is compiled for that program and those externals |
| Json.RoundTrip | crates/jrsonnet-evaluator/src/manifest.rs:270-448 | In all layouts the output is a JSON text (RFC 8259, sections 2 to 7) that reads back as the value |
| Json.LayoutsAgree | crates/jrsonnet-evaluator/src/manifest.rs:270-448 | Layouts differ only in insignificant whitespace |
| Json.PrintReads | crates/jrsonnet-evaluator/src/manifest.rs:270-448 | Reading stops exactly at the end of what was written, whatever follows |
| Json.Writer.Write | crates/jrsonnet-evaluator/src/manifest.rs:270-448 | The writer appends exactly the text, strings through the byte loop, restores the shared padding, and fails exactly on values that cannot be written |
| Json.ManifestJson | crates/jrsonnet-evaluator/src/manifest.rs:263-267 | The bytes of the whole text, valid UTF-8, exactly if the value can be written; what the text looks like is said by `JsonLayout.TextLaid` |
| JsonLayout.TextLaid | crates/jrsonnet-evaluator/src/manifest.rs:270-448 | A walk over the text that counts open brackets finds it laid out: in Manifest and Std each element and each closing bracket of a non-empty container begins a line, and every line starts with exactly the padding once for each bracket open there, one fewer before a closing bracket; ToString has one blank after commas and colons and no other outside empty containers; Minify has no whitespace; empty containers are `[ ]`, `[`, an empty line, padding and `]`, or `[]` |
| JsonLayout.ManifestLaid | crates/jrsonnet-evaluator/src/manifest.rs:263-267 | What manifesting returns are the bytes of a text that is laid out and reads back as the value |
| Json.ShortestSpelling | crates/jrsonnet-evaluator/src/manifest.rs:604-647 | No JSON spelling of a string is shorter than the one written, so every short escape is used |
| Escapes.EscapeRaw | crates/jrsonnet-evaluator/src/manifest.rs:604-647 | The run-batched loop equals the per-byte map |
| Escapes.EscapeEncoded | crates/jrsonnet-evaluator/src/manifest.rs:604-647 | Escaping the bytes of a text is escaping its characters |
| Escapes.Unescape | crates/jrsonnet-lexer/src/string.rs:16-51 | The iterator loop reads exactly the described strings |
| Escapes.JsonRoundTrip | crates/jrsonnet-lexer/src/string.rs:16-51 | Reading inverts JSON escaping on every string |
| Escapes.Quote | crates/jrsonnet-pack/src/lib.rs:285-300 | The loop computes the per-character quotation |
| Escapes.QuoteRoundTrip | crates/jrsonnet-pack/src/lib.rs:285-300 | Reading inverts quoting on every string |
| Escapes.QuoteCloses | crates/jrsonnet-pack/src/lib.rs:285-300 | A quoted string ends where it was closed, whatever follows |
| Escapes.Utf16Exact | crates/jrsonnet-lexer/src/string.rs:5-15 | `\u` escapes decode to a text exactly when they are its UTF-16 encoding (section 2.1 of RFC 2781); lone surrogates are rejected |
| Escapes.HexExact | crates/jrsonnet-lexer/src/string.rs:52-57 | `\x` gives the character of its two digits exactly when the first is 0 |
| TextBlocks.LexOf | crates/jrsonnet-lexer/src/string_block.rs:197-291 | Lexing a written block gives its lines and chomp flag and stops at its end |
| TextBlocks.LexExact | crates/jrsonnet-lexer/src/string_block.rs:197-291 | A text is accepted with given lines exactly when it starts with a written block of these lines |
| TextBlocks.Lexer.LexBlock | crates/jrsonnet-lexer/src/string_block.rs:197-291 | The cursor loop computes the description and stays in bounds |
| TextBlocks.CheckWhitespace | crates/jrsonnet-lexer/src/string_block.rs:97-120 | Length of the whitespace prefix the line shares with the indent, or 0 |
| Sets.SetMember | crates/jrsonnet-stdlib/src/sets.rs:9-25 | Binary search answers membership exactly, and fails exactly on keys that do not compare |
| Sets.SetInter | crates/jrsonnet-stdlib/src/sets.rs:29-65 | Strictly increasing, and exactly the elements of `a` whose key is in `b` |
| Sets.SetDiff | crates/jrsonnet-stdlib/src/sets.rs:69-112 | Strictly increasing, and exactly the elements of `a` whose key is not in `b` |
| Sets.SetUnion | crates/jrsonnet-stdlib/src/sets.rs:116-167 | Strictly increasing, and exactly the elements of `a` and those of `b` whose key is not in `a` |
| Sets.OneArray | crates/jrsonnet-stdlib/src/sets.rs:29-167 | These descriptions have one solution each |
| Sets.SplitAndJoin | crates/jrsonnet-stdlib/src/sets.rs:69-167 | The union of difference and intersection is the array |

## Left out

- Destructuring patterns, asserts, object comprehensions, computed and hidden fields, `+:` fields, slices, imports as expressions, `in super`.
- Named arguments: calls are positional, with defaults.
- Memoisation in the packed machine: it re-evaluates thunks; `Thunks` proves separately that memoising changes nothing.
- The eager evaluation of array comprehensions and of array literals (crates/jrsonnet-evaluator/src/evaluate/mod.rs:122-135), which falls back to the lazy one modelled here when it fails.
- `+` on objects, and `e { ... }` with a left side that is no object: the source applies `+` (crates/jrsonnet-evaluator/src/evaluate/mod.rs:202-215), the model fails in both evaluators.
- JsonLayout.TextLaid: for line feeds as newlines, and the separators `: ` in ToString and `:` in Minify, as the source's own formats have them; the general statement about whitespace is `Json.LayoutsAgree`.
- Json.LayoutsAgree: the token of a number is the same in all layouts; the source's ToString layout writes 17 significant digits (crates/jrsonnet-evaluator/src/manifest.rs:296-318), so there the token itself can differ.
- Object assertions, visibility and field caching.
- Warnings, spans and suggestions, and the use depths that warnings are based on: `Siblings.MarkUsed` is proved on its own and not called by `Analyzer`.
- Analyzer.AnalysisStack.AnalyzeOver: what is known about a local when a source is analysed is read off the state; what the dependency loop makes of a frame is proved in `SiblingMentions` on lists of mentions.
- SiblingMentions.MissedExample: speaks of the lists of mentions of the sample frame, not of a run of the analyser on it.
- Programs.AnalyzeRoot: of the marks on sources, the contract of a whole run determines those of sources that mention nothing from around them; `Analyzer.AnalysisStack.AnalyzeOver` determines all.
- The JSON writer's strings are flat: ropes are escaped chunk by chunk in the source, which gives the same bytes.
- Floating point numbers and their formatting: numbers are tokens.
- Tokenising for `Pratt`: it starts from tokens, and fixed-front constructs such as `local ... ;` and `error` are one token each.
- The grammar rules of the event parser: `EventParser` covers the marker operations they are made of.
- The `rowan` tree builder: `GreenTrees` describes the tree its calls stand for.
- Thread hand-over of the interner pool and raw memory layout: blocks are entries of a map.
