# DFTE rendering engine in Dafny

This project models the core of the DFTE template engine, an Arduino
library that streams `%NAME%` templates out in bounded chunks, and proves
properties of the model. It covers the three parts of the engine:

- **Placeholder registry** (`registry.dfy`, module `PlaceholderRegistry`).
  - A class over a fixed-capacity array of entries, with six ways to register an entry.
  - Lookup scans from the newest entry back, so the most recent entry with a name wins.
  - The copy primitives clamp each copy to `min(room, rest, 512 or 128)` bytes.
- **Render context** (`context.dfy`, module `TemplateContext`).
  - A class holding the 16-slot rendering stack, the saved buffer triple of each slot, the 24-byte token accumulator and the 512-byte staging buffer.
  - `View()` abstracts the class to a value `Snapshot`: the state, the frames on the stack, the token, the bytes processed and the number of iterator close calls.
  - Every method is specified as a pure transition on snapshots (`Pushed`, `Popped`, `ReadChar`).
  - The class invariant keeps the staging buffer coherent with the template on top. Because of that invariant, buffered reads and direct reads of the template agree.
- **Renderer** (`render_spec.dfy`, module `RenderSpec`; `renderer.dfy`, module `TemplateRenderer`).
  - The state machine TEXT, BUILDING_PLACEHOLDER, RENDERING_CONTEXT, then COMPLETE or ERROR. Each handler returns an outcome holding the bytes written, the next state, a repeat flag, a pop count and a push command.
  - `RenderSpec` states each handler, `applyStackCommands`, `renderChunk` and the loop of `renderNextChunk` as functions on snapshots.
  - `TemplateRenderer` gives the same operations as methods on a `RenderContext` and a caller's `array<char>`. Each method is proved to produce exactly the outcome, new snapshot and written bytes of its function, and to touch no other part of the buffer.
- **Properties** (`properties.dfy`, module `RenderProperties`): lemmas about the functions.
  - Stack discipline, and overflow forcing ERROR.
  - Name resolution order.
  - The behaviour of each round: text, tokens, unknown names, over-long and unterminated tokens, iterator COMPLETE, ERROR and items, and conditionals.
  - Whole renderings. A template without `%` renders verbatim over any number of calls and any buffer size. A template `a%name%b` whose name nothing answers to renders as `a` followed by `b`.
- **Scenarios** (`scenarios.dfy`, module `RenderScenarios`): whole renderings of `a%name%b` with `name` registered.
  - Each kind the renderer expands without further tokens is covered: static or live data, a static or computed template, a conditional that delegates to data or renders nothing, and an iterator over plain items.
  - The rendering writes `a`, the placeholder's bytes and `b` for every buffer size, and completes.
  - The proof follows the rendering stage by stage, with one round function `Next` and a measure that every round decreases.

`types.dfy` (module `TemplateTypes`) holds the shared data model. It defines:
- the placeholder kinds and their descriptors
- the iterator items
- the stack frames, one datatype variant per context type
- the constants (24-byte names, 16 frames, 512-byte buffer, 512/128-byte chunks, 50 rounds per call)

User callbacks are modelled as the value they return:
- A getter is either null or present together with its result.
- A conditional's evaluator is its branch result.
- An iterator's `next` is a stream of items ending in COMPLETE or ERROR, read with a cursor kept in the iterator frame.
- Whether `open` yields a non-null handle is a flag.
- The iterator close hook is counted in the snapshot's `closes`.

C strings are `seq<char>` values without NUL.

Two behaviours of the code are easy to misread:
- `resolvePlaceholder` looks a name up in the registry first. It consults the overrides of the template on top only when the registry has no entry (`RegistryBeforeOverrides`, `OverrideWhenUnregistered`).
- A conditional that delegated to a template is **not** unwound when that template ends. `handleTemplateCompletion` pops the template and its carrier frame and leaves the conditional frame on top in RENDERING_CONTEXT. From then on every call writes nothing and changes nothing (`ConditionalTemplateDelegateStalls`). Only a data delegate pops its conditional parent as well (`DataCompletion`).

## Model

| member | source | states |
|---|---|---|
| PlaceholderRegistry.ValidatePlaceholderName | src/DeviceFrameworkPlaceholderRegistry.cpp:175-194 | a name is accepted exactly when it is non-null and shorter than 24 bytes |
| PlaceholderRegistry.FindIndex | src/DeviceFrameworkPlaceholderRegistry.cpp:196-205 | the index found holds the name and no later entry does, so the newest match wins; nothing is found exactly when no entry has the name |
| PlaceholderRegistry.ChunkLength | src/DeviceFrameworkPlaceholderRegistry.cpp:260-273 | a copy never exceeds the room or the chunk cap, stays inside the data, is empty exactly when nothing is left or nothing fits, and otherwise stops at the room, the cap or the end of the data |
| PlaceholderRegistry.Chunk | src/DeviceFrameworkPlaceholderRegistry.cpp:260-273 | the bytes of one copy are the data from `offset` on, of the clamped length |
| PlaceholderRegistry.CopyProgmemData | src/DeviceFrameworkPlaceholderRegistry.cpp:260-273 | writes the 512-capped chunk of static data at the destination and returns its length; a null source writes nothing; no other byte of the destination changes |
| PlaceholderRegistry.CopyRamData | src/DeviceFrameworkPlaceholderRegistry.cpp:275-293 | writes the 128-capped chunk of the getter's text; a null getter or a null result writes nothing; no other byte changes |
| PlaceholderRegistry.RenderedChunk | src/DeviceFrameworkPlaceholderRegistry.cpp:207-230 | nothing for a null entry, for `maxLen == 0` and for computed templates, conditionals and iterators; for the other kinds exactly `min(maxLen, rest, cap)` bytes (`ChunkLength`), where `rest` is what is left of the entry's bytes after `offset` and `cap` is 128 for live data and 512 otherwise, and those bytes are the entry's bytes from `offset` on |
| PlaceholderRegistry.RenderPlaceholder | src/DeviceFrameworkPlaceholderRegistry.cpp:207-230 | writes exactly the rendered chunk for the entry and returns its length, leaving the rest of the destination unchanged |
| PlaceholderRegistry.GetProgmemLength | src/DeviceFrameworkPlaceholderRegistry.cpp:232-235 | the length of static data is the number of its bytes the renderer streams, 0 for a null pointer |
| PlaceholderRegistry.GetRamLength | src/DeviceFrameworkPlaceholderRegistry.cpp:237-246 | the length of live data is the number of bytes of the getter's text, 0 for a null getter or result |
| PlaceholderRegistry.GetDynamicTemplateLength | src/DeviceFrameworkPlaceholderRegistry.cpp:248-258 | 0 for a null descriptor or text; for the descriptor's own text it is the length the renderer uses for it (the length callback's answer, else `strlen`) |
| PlaceholderRegistry.Registry.constructor | src/DeviceFrameworkPlaceholderRegistry.cpp:5-9 | a new registry is empty, has the requested capacity and every slot is a zero entry |
| PlaceholderRegistry.Registry.RegisterProgmemData | src/DeviceFrameworkPlaceholderRegistry.cpp:18-43 | succeeds exactly when there is room and the name is valid; success appends the entry, failure changes nothing |
| PlaceholderRegistry.Registry.RegisterProgmemTemplate | src/DeviceFrameworkPlaceholderRegistry.cpp:45-64 | succeeds exactly when there is room and the name is valid; success appends the entry, failure changes nothing |
| PlaceholderRegistry.Registry.RegisterRamData | src/DeviceFrameworkPlaceholderRegistry.cpp:66-90 | also refuses a null getter; success appends the entry, failure changes nothing |
| PlaceholderRegistry.Registry.RegisterDynamicTemplate | src/DeviceFrameworkPlaceholderRegistry.cpp:92-116 | also refuses a null descriptor or a null getter; success appends the entry, failure changes nothing |
| PlaceholderRegistry.Registry.RegisterConditional | src/DeviceFrameworkPlaceholderRegistry.cpp:118-142 | also refuses a null descriptor or evaluator; success appends the entry, failure changes nothing |
| PlaceholderRegistry.Registry.RegisterIterator | src/DeviceFrameworkPlaceholderRegistry.cpp:144-168 | also refuses a null descriptor or `next` hook; success appends the entry, failure changes nothing |
| PlaceholderRegistry.Registry.Clear | src/DeviceFrameworkPlaceholderRegistry.cpp:170-173 | the registry is empty afterwards, with every slot zeroed and the capacity kept |
| PlaceholderRegistry.Registry.GetPlaceholder | src/DeviceFrameworkPlaceholderRegistry.cpp:196-205 | the newest registered entry with the name (by `FindIndex`), none for a null name |
| RenderProperties.LookupAfterAppend | src/DeviceFrameworkPlaceholderRegistry.cpp:196-205 | after registering an entry its name finds that entry, and every other name finds what it found before |
| TemplateContext.Pushed | src/DeviceFrameworkTemplateContext.cpp:27-63 | a push onto a full stack forces ERROR and changes nothing else; otherwise the frame goes on top and everything below stays |
| TemplateContext.Popped | src/DeviceFrameworkTemplateContext.cpp:65-111 | a pop of an empty stack forces ERROR; otherwise the top frame goes and the close hook is called once for an iterator with an open handle |
| TemplateContext.ReadChar | src/DeviceFrameworkTemplateContext.cpp:213-241 | with template bytes left, the byte at the position (never NUL) and the position advanced by one; otherwise NUL with nothing changed |
| RenderProperties.PopUndoesPush | src/DeviceFrameworkTemplateContext.cpp:27-111 | popping a frame just pushed restores the snapshot, apart from the close call the frame may make |
| TemplateContext.RenderContext.constructor | src/DeviceFrameworkTemplateContext.cpp:4-11 | a new context is in TEXT with an empty stack, an empty token, no registry and an empty buffer |
| TemplateContext.RenderContext.Reset | src/DeviceFrameworkTemplateContext.cpp:13-24 | back to TEXT with an empty stack and token, zero bytes processed, all slots, buffers and name bytes zeroed; the registry stays |
| TemplateContext.RenderContext.PushContext | src/DeviceFrameworkTemplateContext.cpp:27-63 | the stack becomes `Pushed`; a template on top first saves the shared buffer triple in its slot, and a new template starts with an empty buffer |
| TemplateContext.RenderContext.PopContext | src/DeviceFrameworkTemplateContext.cpp:65-111 | the stack becomes `Popped`; a template uncovered by the pop resumes with an empty buffer at its own position |
| TemplateContext.RenderContext.CurrentContext | src/DeviceFrameworkTemplateContext.cpp:113-116 | the top frame of the view, none on an empty stack |
| TemplateContext.RenderContext.GetContext | src/DeviceFrameworkTemplateContext.cpp:118-121 | the frame at a depth counted from the bottom, none exactly when the depth is out of range |
| TemplateContext.RenderContext.IsRenderingTemplate | src/DeviceFrameworkTemplateContext.cpp:123-126 | true exactly when a template frame is on top |
| TemplateContext.RenderContext.IsRenderingPlaceholder | src/DeviceFrameworkTemplateContext.cpp:128-133 | true exactly when a data frame or a static-template carrier is on top (the other kinds do not count), never together with a template on top |
| TemplateContext.RenderContext.GetCurrentContextType | src/DeviceFrameworkTemplateContext.cpp:135-138 | the kind of the top frame, TEMPLATE on an empty stack; it names TEMPLATE over a non-empty stack exactly when a template is on top |
| TemplateContext.RenderContext.IsComplete | src/DeviceFrameworkTemplateContext.cpp:140-142 | true in COMPLETE and also in ERROR |
| TemplateContext.RenderContext.HasError | src/DeviceFrameworkTemplateContext.cpp:144-146 | true exactly in ERROR |
| TemplateContext.RenderContext.RefillBuffer | src/DeviceFrameworkTemplateContext.cpp:181-211 | succeeds exactly when the top template has bytes left; it then stages up to 512 template bytes from the position on, with the cursor at 0; a failure changes nothing; the view does not change |
| TemplateContext.RenderContext.GetNextChar | src/DeviceFrameworkTemplateContext.cpp:213-241 | returns and consumes what `ReadChar` reads from the view, refilling the buffer when it runs dry |
| TemplateContext.RenderContext.GetAvailableBytes | src/DeviceFrameworkTemplateContext.cpp:243-245 | the staged bytes not yet read: the fill level less the cursor, at most 512 |
| TemplateContext.RenderContext.HasMoreData | src/DeviceFrameworkTemplateContext.cpp:247-254 | true exactly when a template is on top with bytes left |
| TemplateContext.RenderContext.ResetPlaceholder | src/DeviceFrameworkTemplateContext.cpp:256-259 | the token becomes empty and the name buffer is zeroed, nothing else changes |
| RenderSpec.Unwind | src/DeviceFrameworkTemplateRenderer.cpp:733-748 | pops `pops` frames and resumes in the state the frame left on top selects, COMPLETE when none is left; finished exactly then, else repeats |
| RenderSpec.TemplateCompletion | src/DeviceFrameworkTemplateRenderer.cpp:488-526 | pops the template, and also its carrier when that is a static, computed or conditional frame; resumes TEXT under a template, RENDERING_CONTEXT under any other frame, COMPLETE on an empty stack |
| RenderSpec.DataCompletion | src/DeviceFrameworkTemplateRenderer.cpp:751-768 | pops the data frame, and a conditional parent with it; resumes by the frame left on top |
| RenderSpec.TextRun | src/DeviceFrameworkTemplateRenderer.cpp:542-562 | the copied run has no `%`, fits the room and the template, and stops only at the room, the end or a `%` |
| RenderSpec.TextRunIs | src/DeviceFrameworkTemplateRenderer.cpp:542-562 | any run with those three properties is the one the copy loop takes |
| RenderSpec.ConsumeText | src/DeviceFrameworkTemplateRenderer.cpp:528-579 | writes at most the room, with exactly as many output bytes as the outcome reports; the invariant is kept |
| RenderProperties.ConsumeTextCopies | src/DeviceFrameworkTemplateRenderer.cpp:528-579 | without a template on top it is an error; otherwise the output is the template text from the position, free of `%`, and the position moves past it and past a `%` that starts a token |
| RenderSpec.Accumulate | src/DeviceFrameworkTemplateRenderer.cpp:589-606 | the token gains the bytes read and stays within 23 bytes; it stops right after the closing `%`, or else at the length limit or the end of the template |
| RenderSpec.AccumulateIs | src/DeviceFrameworkTemplateRenderer.cpp:589-606 | any read with those properties is the one the token loop makes |
| RenderSpec.BuildToken | src/DeviceFrameworkTemplateRenderer.cpp:581-624 | writes nothing and keeps the invariant; without a template on top it is an error |
| RenderSpec.FindOverride | src/DeviceFrameworkTemplateRenderer.cpp:632-640 | finds the first override with the name; nothing exactly when no override has it |
| RenderSpec.Resolve | src/DeviceFrameworkTemplateRenderer.cpp:626-686 | clears the token and writes nothing; an unresolved name resumes TEXT, a resolved one asks to push the entry with the kind and next state its type selects |
| RenderProperties.RegistryBeforeOverrides | src/DeviceFrameworkTemplateRenderer.cpp:626-641 | a name in the registry resolves to a registry entry (the newest match) whatever the overrides are |
| RenderProperties.OverrideWhenUnregistered | src/DeviceFrameworkTemplateRenderer.cpp:626-641 | a name the registry lacks resolves to the first override of the top template with that name |
| RenderSpec.StreamData | src/DeviceFrameworkTemplateRenderer.cpp:719-794 | without a registry the frame is abandoned and rendering resumes; otherwise the chunk has exactly `min(room, rest, cap)` bytes (`ChunkLength`, with `cap` 128 for live data and 512 otherwise); a non-empty chunk is the entry's bytes at the offset, the offset advances by it and the round repeats only when the chunk did not fill the room; an empty chunk completes the frame |
| RenderSpec.Opened | src/DeviceFrameworkTemplateRenderer.cpp:190-194 | the first entry opens the handle and records whether the close hook applies; a later entry changes nothing |
| RenderSpec.Advanced | src/DeviceFrameworkTemplateRenderer.cpp:196-197 | each round asks the iterator once more: the cursor moves on by one |
| RenderSpec.IteratorStep | src/DeviceFrameworkTemplateRenderer.cpp:177-260 | writes nothing, keeps the invariant and calls the close hook at most once |
| RenderProperties.IteratorItemRound | src/DeviceFrameworkTemplateRenderer.cpp:200-228 | an item with a template pushes that template with the item's overrides, resuming TEXT; at full depth it forces ERROR instead |
| RenderProperties.IteratorCompleteRound | src/DeviceFrameworkTemplateRenderer.cpp:229-249 | COMPLETE closes an open handle once, pops the frame and resumes by the frame below |
| RenderProperties.IteratorErrorRound | src/DeviceFrameworkTemplateRenderer.cpp:250-259 | ERROR closes a live handle, forces ERROR and leaves the frames below unchanged |
| RenderSpec.Emit | src/DeviceFrameworkTemplateRenderer.cpp:688-717 | writes at most the room and keeps the invariant; an empty stack completes |
| RenderProperties.ConditionalOnTopIdles | src/DeviceFrameworkTemplateRenderer.cpp:706-707 | a conditional on top asks to repeat and changes nothing |
| RenderSpec.PushOne | src/DeviceFrameworkTemplateContext.cpp:27-63 | a push succeeds exactly below full depth and yields `Pushed` |
| RenderSpec.PushEntry | src/DeviceFrameworkTemplateRenderer.cpp:8-175 | a failed push leaves the stack as it was; a successful one only adds frames on top |
| RenderProperties.FullStackRefusesPush | src/DeviceFrameworkTemplateRenderer.cpp:8-175 | on a full stack every kind of push fails and leaves the stack as it was |
| RenderSpec.PushStaticTemplate | src/DeviceFrameworkTemplateRenderer.cpp:27-47 | succeeds exactly when two frames fit, then pushes the carrier and the template, which starts at 0 |
| RenderProperties.NestedTemplateOverflow | src/DeviceFrameworkTemplateRenderer.cpp:27-47 | without room for two frames the push fails and leaves the stack unchanged in ERROR |
| RenderSpec.PushDynamicTemplate | src/DeviceFrameworkTemplateRenderer.cpp:48-89 | fails on a null descriptor or getter, or without room for two frames, leaving the stack as it was; otherwise pushes the carrier and a template of the computed text with the computed length |
| RenderSpec.PushConditional | src/DeviceFrameworkTemplateRenderer.cpp:90-149 | a failed push leaves the stack as it was; a successful one adds frames on top |
| RenderSpec.PushIterator | src/DeviceFrameworkTemplateRenderer.cpp:150-170 | succeeds exactly with a descriptor and a `next` hook below full depth, pushing a fresh iterator frame |
| RenderSpec.PopN | src/DeviceFrameworkTemplateRenderer.cpp:361-367 | succeeds exactly when the stack holds that many frames, and then removes them |
| RenderProperties.CompletionPops | src/DeviceFrameworkTemplateRenderer.cpp:488-526 | the pops of a template completion always succeed and close nothing |
| RenderSpec.ApplyCommands | src/DeviceFrameworkTemplateRenderer.cpp:360-486 | too many pops fail; without a push the result is exactly the pops |
| RenderProperties.ConditionalPushCommand | src/DeviceFrameworkTemplateRenderer.cpp:400-449 | a null descriptor or evaluator fails and changes nothing; no branch or an unknown delegate succeeds and changes nothing; at full depth a found delegate forces ERROR with the stack kept; below it the result is the delegate's own push above the resolved conditional frame, and when that push fails the conditional frame is taken off again |
| RenderProperties.ConditionalAtFullDepth | src/DeviceFrameworkTemplateRenderer.cpp:432-434 | at full depth the resolved conditional frame does not fit: the push fails in ERROR and the stack is kept |
| RenderProperties.ConditionalBelowFullDepth | src/DeviceFrameworkTemplateRenderer.cpp:432-447 | below full depth the conditional frame goes on and the delegate is pushed above it; a failed delegate push removes the conditional frame again |
| RenderProperties.ConditionalDataDelegate | src/DeviceFrameworkTemplateRenderer.cpp:426-447 | a data delegate adds the resolved conditional frame and a data frame at offset 0 when two frames fit, and forces ERROR otherwise |
| RenderProperties.ConditionalTemplateDelegate | src/DeviceFrameworkTemplateRenderer.cpp:426-447 | a static template delegate adds the resolved conditional frame, the carrier and the template at position 0 when three frames fit, and forces ERROR otherwise |
| RenderProperties.ConditionalDynamicDelegate | src/DeviceFrameworkTemplateRenderer.cpp:426-447 | a computed template delegate succeeds exactly with a descriptor, a getter and room for three frames, adding the resolved frame, the carrier and the computed text with its computed length; a failure keeps the stack and the close count |
| RenderProperties.ConditionalIteratorDelegate | src/DeviceFrameworkTemplateRenderer.cpp:426-447 | an iterator delegate succeeds exactly with a descriptor, a `next` hook and room for two frames, adding the resolved frame and a fresh iterator frame; a failure keeps the stack and the close count |
| RenderProperties.StaticTemplatePush | src/DeviceFrameworkTemplateRenderer.cpp:27-47 | a successful static template push adds only the carrier and the template at position 0; a failed one changes only the state, to ERROR |
| RenderProperties.DynamicTemplatePush | src/DeviceFrameworkTemplateRenderer.cpp:48-89 | a successful computed template push adds only the carrier and the template of the computed text and length |
| RenderProperties.IteratorPush | src/DeviceFrameworkTemplateRenderer.cpp:150-170 | a successful iterator push adds only a fresh iterator frame |
| RenderSpec.Handle | src/DeviceFrameworkTemplateRenderer.cpp:322-331 | the handler for the state writes at most the room, and what it asks to push is well-formed |
| RenderSpec.RenderChunk | src/DeviceFrameworkTemplateRenderer.cpp:319-358 | COMPLETE and ERROR are left alone; the new state is the outcome's, finished and errored report it, and the output fits the room |
| RenderProperties.PoppingRound | src/DeviceFrameworkTemplateRenderer.cpp:339-355 | when the pops fit and nothing is pushed, the round applies the pops and moves to the handler's next state |
| RenderProperties.TerminalIsFixedPoint | src/DeviceFrameworkTemplateRenderer.cpp:795-798 | in COMPLETE or ERROR a round and a whole call write nothing and change nothing |
| RenderSpec.ChunkLoop | src/DeviceFrameworkTemplateRenderer.cpp:805-821 | the loop writes at most the room, counts each byte it writes as processed, and runs at most 50 rounds |
| RenderSpec.NextChunk | src/DeviceFrameworkTemplateRenderer.cpp:795-828 | one call writes at most `maxLen` bytes, all counted as processed, and does nothing in COMPLETE or ERROR |
| RenderSpec.Initialized | src/DeviceFrameworkTemplateRenderer.cpp:834-851 | a fresh rendering is in TEXT with the root template alone on the stack at position 0 |
| RenderProperties.PlainTextRound | src/DeviceFrameworkTemplateRenderer.cpp:528-579 | a round over text without `%` copies as much as fits and stays in TEXT |
| RenderProperties.TextRoundToPercent | src/DeviceFrameworkTemplateRenderer.cpp:553-559 | a round copies the text before a `%`, starts the token with `%` and moves to BUILDING_PLACEHOLDER |
| RenderProperties.TemplateEndRound | src/DeviceFrameworkTemplateRenderer.cpp:573-575 | an exhausted template goes with its carrier and rendering resumes by the frame below; finished exactly when none is left |
| RenderProperties.UnknownTokenDropped | src/DeviceFrameworkTemplateRenderer.cpp:643-647 | a closed token that names nothing renders nothing, and TEXT resumes after its closing `%` |
| RenderProperties.LongTokenDropped | src/DeviceFrameworkTemplateRenderer.cpp:608-612 | a token that reaches 23 bytes unclosed is dropped and TEXT resumes |
| RenderProperties.UnterminatedTokenCompletes | src/DeviceFrameworkTemplateRenderer.cpp:614-618 | a token cut off by the template's end is dropped and the template completes |
| RenderProperties.IdleLoop | src/DeviceFrameworkTemplateRenderer.cpp:805-821 | over a conditional on top the loop spends its rounds and changes nothing |
| RenderProperties.ConditionalTemplateDelegateStalls | src/DeviceFrameworkTemplateRenderer.cpp:499-522 | when a conditional's template delegate ends, the conditional is left on top in RENDERING_CONTEXT, and every later call writes nothing and changes nothing |
| RenderProperties.ExhaustedChunk | src/DeviceFrameworkTemplateRenderer.cpp:795-828 | a call on an exhausted lone template completes with an empty stack and writes nothing |
| RenderProperties.FullChunk | src/DeviceFrameworkTemplateRenderer.cpp:795-828 | a call on text without `%` that fills the buffer writes the next `maxLen` template bytes |
| RenderProperties.RestChunk | src/DeviceFrameworkTemplateRenderer.cpp:795-828 | a call on text without `%` that fits in the buffer writes the rest of it and completes |
| RenderProperties.RenderAll | src/DeviceFrameworkTemplateRenderer.cpp:795-828 | repeated calls count every byte they write as processed, and do nothing once COMPLETE or ERROR is reached |
| RenderProperties.RenderAllStep | src/DeviceFrameworkTemplateRenderer.cpp:795-828 | the output of repeated calls is the first call's output followed by the rest |
| RenderProperties.PlainTemplateRendersVerbatim | src/DeviceFrameworkTemplateRenderer.cpp:795-828 | a lone template without `%` from any position renders exactly its remaining text and completes, for any buffer size |
| RenderProperties.TemplateWithoutPlaceholders | test/test_template_engine/tests/test_template_renderer.cpp:231-235 | a template without `%` renders as itself and completes |
| RenderProperties.PercentRoundLoop | src/DeviceFrameworkTemplateRenderer.cpp:553-559 | in the loop, a round up to a `%` adds the text before it to the output and continues in BUILDING_PLACEHOLDER |
| RenderProperties.DropRoundLoop | src/DeviceFrameworkTemplateRenderer.cpp:643-647 | in the loop, dropping an unknown token writes nothing and continues in TEXT after it |
| RenderProperties.UnknownTokenLoop | src/DeviceFrameworkTemplateRenderer.cpp:626-647 | text followed by an unknown token costs two rounds, outputs the text and continues after the token |
| RenderProperties.TailLoop | src/DeviceFrameworkTemplateRenderer.cpp:528-579 | the `%`-free tail of a lone template is written in full and the rendering completes |
| RenderProperties.OneTokenLoop | src/DeviceFrameworkTemplateRenderer.cpp:626-647 | the loop over `a%name%b` with an unknown name outputs `a` then `b` and completes |
| RenderProperties.OneTokenChunk | src/DeviceFrameworkTemplateRenderer.cpp:795-828 | one call over `a%name%b` with an unknown name that fits the buffer writes `a` then `b` and completes |
| RenderProperties.UnknownPlaceholderVanishes | test/test_template_engine/tests/test_template_renderer.cpp:504-510 | a fresh rendering of `a%name%b` whose name nothing answers to yields `a` followed by `b` in one call, and completes |
| RenderProperties.RunRenders | src/DeviceFrameworkTemplateRenderer.cpp:795-828 | a run of calls, each the next chunk of the snapshot before it, is what repeated calls produce: its last snapshot and its chunks joined |
| RenderProperties.RunRendersStep | src/DeviceFrameworkTemplateRenderer.cpp:795-828 | a call followed by a run renders the call's chunk followed by the run's chunks |
| RenderProperties.RunCons | src/DeviceFrameworkTemplateRenderer.cpp:795-828 | a call whose result starts a run extends the run by one call |
| RenderScenarios.Next | src/DeviceFrameworkTemplateRenderer.cpp:319-358 | one round over `a%name%b` leads to a stage with a smaller measure and writes at most the room; what it writes followed by what is still to come from the new stage is what was to come before |
| RenderScenarios.RoundStage | src/DeviceFrameworkTemplateRenderer.cpp:319-358 | every round of the renderer from a stage of `a%name%b` is the round `Next` describes |
| RenderScenarios.TokenPush | src/DeviceFrameworkTemplateRenderer.cpp:360-486 | the push a resolved `%name%` asks for lays the frames of the placeholder's start stage and selects its state |
| RenderScenarios.LoopReachesStage | src/DeviceFrameworkTemplateRenderer.cpp:805-821 | the loop of one call stops at a stage; what it writes followed by what comes from there is what was to come, and a loop that runs a round gets closer to the end |
| RenderScenarios.NextChunkReaches | src/DeviceFrameworkTemplateRenderer.cpp:795-828 | one call from a stage that is not the end reaches a later stage, writing the next bytes of what is to come |
| RenderScenarios.RunFrom | src/DeviceFrameworkTemplateRenderer.cpp:795-828 | from any stage the calls form a run of at most the measure's length, ending in COMPLETE, whose chunks joined are what was to come |
| RenderScenarios.RendersFrom | src/DeviceFrameworkTemplateRenderer.cpp:795-828 | repeated calls from a stage, with enough of them, end in COMPLETE and write exactly what was to come |
| RenderScenarios.PlaceholderRenders | src/DeviceFrameworkTemplateRenderer.cpp:795-851 | a fresh rendering of `a%name%b` with a registered placeholder writes `a`, the placeholder's rendering and `b`, in buffers of any size, completes with those bytes counted, and calls the close hook once for an opened iterator handle |
| RenderScenarios.PlaceholderRenderingIgnoresBufferSize | test/test_template_engine/tests/test_template_renderer.cpp:840-856 | two buffer sizes give the same bytes and the same final context for a registered placeholder |
| RenderScenarios.ItemsFrom | src/DeviceFrameworkTemplateRenderer.cpp:200-228 | the items of an iterator from a cursor on render as their texts one after the other, in two rounds per item beyond their bytes |
| RenderScenarios.DataPlaceholderRenders | test/test_template_engine/tests/test_template_renderer.cpp:248-272 | `a%name%b` with `name` registered as static or live data renders as `a`, the data and `b`, and completes |
| RenderScenarios.TemplatePlaceholderRenders | test/test_template_engine/tests/test_template_renderer.cpp:516-531 | `a%name%b` with `name` a static template without placeholders renders as `a`, the template and `b` |
| RenderScenarios.DynamicTemplatePlaceholderRenders | test/test_template_engine/tests/test_template_renderer.cpp:840-869 | `a%name%b` with `name` a computed template without placeholders renders as `a`, the first `getLength` bytes of the getter's text and `b` |
| RenderScenarios.ConditionalPlaceholderRenders | test/test_template_engine/tests/test_template_renderer.cpp:892-920 | `a%name%b` with `name` a conditional whose branch names a data placeholder renders as `a`, that data and `b` |
| RenderScenarios.SkippedConditionalRenders | test/test_template_engine/tests/test_template_renderer.cpp:922-949 | `a%name%b` with `name` a conditional that skips, or whose branch names nothing registered, renders as `a` then `b` |
| RenderScenarios.IteratorPlaceholderRenders | test/test_template_engine/tests/test_template_renderer.cpp:986-997 | `a%name%b` with `name` an iterator over plain items that then completes renders as `a`, the items and `b`; the close count grows by one exactly when `open` returned a handle and a close hook is set |
| TemplateRenderer.ConsumeTemplateText | src/DeviceFrameworkTemplateRenderer.cpp:528-579 | the outcome, the new snapshot and the bytes written into the caller's buffer are those of `ConsumeText`; nothing else in the buffer changes |
| TemplateRenderer.CopyTemplateText | src/DeviceFrameworkTemplateRenderer.cpp:542-562 | the copy loop writes the `%`-free run of `TextRun` and leaves the context at its end |
| TemplateRenderer.BuildPlaceholderToken | src/DeviceFrameworkTemplateRenderer.cpp:581-624 | the outcome and new snapshot are those of `BuildToken` |
| TemplateRenderer.ReadToken | src/DeviceFrameworkTemplateRenderer.cpp:589-606 | the token loop reads what `Accumulate` reads |
| TemplateRenderer.ResolvePlaceholder | src/DeviceFrameworkTemplateRenderer.cpp:626-686 | the outcome and new snapshot are those of `Resolve` |
| TemplateRenderer.FindOverrideIndex | src/DeviceFrameworkTemplateRenderer.cpp:632-640 | the override scan finds what `FindOverride` finds |
| TemplateRenderer.StreamPlaceholderData | src/DeviceFrameworkTemplateRenderer.cpp:719-794 | the outcome, the new snapshot and the bytes written are those of `StreamData`; nothing else in the buffer changes |
| TemplateRenderer.ProcessIteratorContext | src/DeviceFrameworkTemplateRenderer.cpp:177-260 | the outcome and new snapshot are those of `IteratorStep` |
| TemplateRenderer.EmitActiveContext | src/DeviceFrameworkTemplateRenderer.cpp:688-717 | the outcome, the new snapshot and the bytes written are those of `Emit` |
| TemplateRenderer.PushPlaceholderEntry | src/DeviceFrameworkTemplateRenderer.cpp:8-175 | its success and new snapshot are those of `PushEntry` |
| TemplateRenderer.PushStaticTemplateEntry | src/DeviceFrameworkTemplateRenderer.cpp:27-47 | its success and new snapshot are those of `PushStaticTemplate` |
| TemplateRenderer.PushDynamicTemplateEntry | src/DeviceFrameworkTemplateRenderer.cpp:48-89 | its success and new snapshot are those of `PushDynamicTemplate` |
| TemplateRenderer.PushConditionalEntry | src/DeviceFrameworkTemplateRenderer.cpp:90-149 | its success and new snapshot are those of `PushConditional` |
| TemplateRenderer.PushIteratorFrame | src/DeviceFrameworkTemplateRenderer.cpp:150-170 | its success and new snapshot are those of `PushIterator` |
| TemplateRenderer.PopFrames | src/DeviceFrameworkTemplateRenderer.cpp:361-367 | its success and new snapshot are those of `PopN` |
| TemplateRenderer.ApplyStackCommands | src/DeviceFrameworkTemplateRenderer.cpp:360-486 | its success and new snapshot are those of `ApplyCommands` |
| TemplateRenderer.PushConditionalCommand | src/DeviceFrameworkTemplateRenderer.cpp:400-449 | its success and new snapshot are those of the conditional case of `ApplyPush` |
| TemplateRenderer.RenderChunk | src/DeviceFrameworkTemplateRenderer.cpp:319-358 | the outcome, the new snapshot and the bytes written are those of `RenderSpec.RenderChunk` |
| TemplateRenderer.RenderNextChunk | src/DeviceFrameworkTemplateRenderer.cpp:795-828 | returns at most `maxLen`; the new snapshot and the bytes written are those of `NextChunk`; nothing beyond `maxLen` is touched |
| TemplateRenderer.InitializeContext | src/DeviceFrameworkTemplateRenderer.cpp:834-851 | the context becomes `Initialized` for the template and its locality |
| TemplateRenderer.InitializeProgmemContext | src/DeviceFrameworkTemplateRenderer.cpp:830-832 | the one-argument form initializes a static (flash) template |

## Left out

- Logging and `logStateTransition`, the `getStateString`, `getStackTrace`, `getContextTypeString` and `getStateName` texts, and the warning for running out of rounds: they format only diagnostic text.
- `startTime` and `millis()`: the clock does not influence rendering.
- The PROGMEM primitives (`memcpy_P`, `strlen_P`, `pgm_read_byte`): flash and RAM bytes are both plain sequences, and the `isProgmem` flag is kept but reads the same way.
- The internals of user callbacks and the `void*` user data and handles: each callback is the value it returns, as described above. Because an iterator's cursor is kept in its frame, a second `%name%` of the same iterator starts again at the first item; in the C++ without an `open` hook the handle is the shared user data, so a stateful `next` would continue where it stopped.
- An override entry's own `getLength` callback: the renderer takes the length of an entry's bytes as its length, which is what the registry's `getProgmemLength` and `getRamLength` return.
- The registry destructor: memory management has no counterpart here.
- Embedded NUL bytes and the NUL written after a token: every string is NUL-free, so `getNextChar` returning NUL means the end of the template.
- Null entries and null frame pointers reaching `pushPlaceholderEntry`, `applyStackCommands`, `streamPlaceholderData` and `processIteratorContext`: the model never produces them, so those branches are not modelled.
- The TEMPLATE push kind of `applyStackCommands` is modelled as written (`ApplyPush`), although no handler requests it.
- The raw reinterpretation of `entry->data` as a conditional or iterator descriptor is modelled by `ConditionalOf` and `IteratorOf`; an entry of another type yields none.
- The last branch of `buildPlaceholderToken` (stay in BUILDING_PLACEHOLDER, repeating when `madeProgress`): without embedded NUL the token loop ends only at a closing `%`, at the length limit or at the end of the template, so that branch is unreachable and `BuildToken` has no such case.
- `isComplete` and `hasError` of the renderer only forward to the context's (`RenderContext.IsComplete`, `RenderContext.HasError`).
- Saved buffer triples live in a parallel array beside the stack slots instead of inside each frame, so that frames are plain values.
- The parallel-contexts test only uses two independent context objects over one registry; there is no interleaving to model.
- RenderAll: the caller's loop of repeated `renderNextChunk` calls is bounded by an explicit fuel count; a rendering that needs more calls than the fuel is cut off.
- RenderProperties.ConditionalTemplateDelegateStalls: no completion is proved for a conditional whose delegate is a template or an iterator, because the code leaves the conditional on top and stalls.
- RenderSpec.ConsumeText, RenderSpec.BuildToken, RenderSpec.Emit and RenderSpec.IteratorStep: their own contracts state only the bounds and the kept invariant; the exact effects of each case are stated in the `RenderProperties` lemmas about them and in the renderer methods that equal them.
- RenderSpec.PushConditional: its own contract states only that a failure keeps the stack and a success adds frames on top; the result of every case is stated by `RenderProperties.ConditionalPushCommand` and the conditional lemmas beside it.
- PlaceholderRegistry.Registry.RegisterDynamicTemplate and PlaceholderRegistry.Registry.RegisterIterator: they require a descriptor whose `getLength` answer (or an item's `templateLength`) fits its text. The C++ accepts a longer length and later reads past the end of the text; the model cannot state such a read, so those registrations are outside it.
- RenderScenarios.PlaceholderRenders: whole renderings are proved for one placeholder whose rendering writes no further placeholder. A template or an item with placeholders of its own, overrides, a conditional delegating to a template or an iterator (which stalls, see above), an iterator item without a template (which the renderer skips in an extra round), and an iterator whose `next` ends in ERROR are covered only round by round.
- RenderScenarios.PlaceholderRenderingIgnoresBufferSize: independence from the buffer size is proved for templates without `%` and for `a%name%b` with one placeholder of the kinds above, not for every template and registry.
- RenderScenarios.IteratorPlaceholderRenders: only items that have a template, without `%` in its text; the item overrides the iterator tests use are not part of a whole-rendering lemma.
