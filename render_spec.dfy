/**
 * The renderer's state machine as functions on context snapshots.
 *
 * Each handler inspects a `Snapshot` (and the registered entries, `None`
 * when no registry is attached) and yields a `Step`: the `RenderOutcome`
 * it computes, the snapshot after the reads and frame updates it makes
 * itself, and the bytes it writes. `ApplyCommands` then executes the
 * outcome's pops and push, and `RenderChunk` / `NextChunk` compose the
 * whole cycle. The imperative renderer is proved to compute exactly these.
 */
module RenderSpec {
  import opened TemplateTypes
  import opened PlaceholderRegistry
  import opened TemplateContext

  /** The frame a handler asks `applyStackCommands` to push, with its (never null) entry. */
  datatype PushCommand = NoPush | Push(kind: ContextType, entry: PlaceholderEntry)

  datatype RenderOutcome = RenderOutcome(bytesWritten: nat, nextState: RenderState, repeat: bool,
                                         finished: bool, errored: bool, popCount: nat,
                                         push: PushCommand)

  function MakeWritten(bytes: nat, state: RenderState, repeat: bool): RenderOutcome
  {
    RenderOutcome(bytes, state, repeat, false, false, 0, NoPush)
  }

  function MakeState(state: RenderState, repeat: bool): RenderOutcome
  {
    RenderOutcome(0, state, repeat, false, false, 0, NoPush)
  }

  function MakeComplete(): RenderOutcome
  {
    RenderOutcome(0, Completed, false, true, false, 0, NoPush)
  }

  function MakeError(): RenderOutcome
  {
    RenderOutcome(0, Errored, false, false, true, 0, NoPush)
  }

  /** What one handler produces: its outcome, the snapshot after it and the bytes it wrote. */
  datatype Step = Step(outcome: RenderOutcome, after: Snapshot, output: seq<char>)

  /** The entries of the attached registry, oldest first; `None` when no registry is set. */
  type Registered = Option<seq<PlaceholderEntry>>

  predicate RegistryOk(reg: Registered)
  {
    reg.Some? ==> WellFormedEntries(reg.value)
  }

  predicate Terminal(state: RenderState)
  {
    state == Completed || state == Errored
  }

  // ---------------------------------------------------------------------------
  // Unwinding

  /** Frames that exist only to carry the template pushed right above them. */
  predicate WrapsTemplate(f: Frame)
  {
    f.TemplatePlaceholderFrame? || f.DynamicTemplateFrame? || f.ConditionalFrame?
  }

  /** The state rendering resumes in when `rest` is what is left on the stack. */
  function ResumeState(rest: seq<Frame>): RenderState
  {
    if |rest| == 0 then Completed
    else if rest[|rest| - 1].TemplateFrame? then Text
    else RenderingContext
  }

  /**
   * The outcome that pops `pops` frames and then looks at the frame below
   * them: none left means COMPLETE (finished), a template means TEXT,
   * anything else RENDERING_CONTEXT.
   */
  function Unwind(stack: seq<Frame>, pops: nat): (r: RenderOutcome)
    requires 1 <= pops
    ensures r.popCount == pops && r.bytesWritten == 0 && r.push.NoPush? && !r.errored
    ensures pops <= |stack| ==> r.nextState == ResumeState(stack[..|stack| - pops])
    ensures pops > |stack| ==> r.nextState == Completed
    ensures r.finished <==> r.nextState == Completed
    ensures r.repeat <==> !r.finished
  {
    var base := MakeState(RenderingContext, true).(popCount := pops);
    if |stack| <= pops then base.(nextState := Completed, repeat := false, finished := true)
    else if stack[|stack| - 1 - pops].TemplateFrame? then base.(nextState := Text)
    else base
  }

  /**
   * `handleTemplateCompletion`: the finished template goes, and with it
   * the frame that carried it when there is one.
   */
  function TemplateCompletion(stack: seq<Frame>): (r: RenderOutcome)
    ensures r.popCount == (if |stack| >= 2 && WrapsTemplate(stack[|stack| - 2]) then 2 else 1)
    ensures r.bytesWritten == 0 && r.push.NoPush? && !r.errored
    ensures 1 <= |stack| ==> r.nextState == ResumeState(stack[..|stack| - r.popCount])
    ensures r.finished <==> r.nextState == Completed
  {
    Unwind(stack, if |stack| >= 2 && WrapsTemplate(stack[|stack| - 2]) then 2 else 1)
  }

  /** The unwinding of an exhausted data frame, which also ends a conditional it was delegated from. */
  function DataCompletion(stack: seq<Frame>): (r: RenderOutcome)
    ensures r.popCount == (if |stack| >= 2 && stack[|stack| - 2].ConditionalFrame? then 2 else 1)
    ensures r.bytesWritten == 0 && r.push.NoPush? && !r.errored
    ensures 1 <= |stack| ==> r.nextState == ResumeState(stack[..|stack| - r.popCount])
  {
    Unwind(stack, if |stack| >= 2 && stack[|stack| - 2].ConditionalFrame? then 2 else 1)
  }

  // ---------------------------------------------------------------------------
  // TEXT

  /** Bytes copied from `pos`: the run before the next `%`, the end of the template or the budget. */
  function TextRun(data: CString, len: nat, pos: nat, budget: nat): (k: nat)
    requires len <= |data|
    decreases budget
    ensures k <= budget && (pos <= len ==> pos + k <= len) && (pos > len ==> k == 0)
    ensures forall i :: pos <= i < pos + k ==> data[i] != '%'
    ensures k < budget && pos + k < len ==> data[pos + k] == '%'
  {
    if budget == 0 || pos >= len || data[pos] == '%' then 0
    else 1 + TextRun(data, len, pos + 1, budget - 1)
  }

  /** `TextRun` is the one run length that stops where the text, the budget or a `%` stops it. */
  lemma {:induction false} TextRunIs(data: CString, len: nat, pos: nat, budget: nat, k: nat)
    requires len <= |data| && pos + k <= len && k <= budget
    requires forall i :: pos <= i < pos + k ==> data[i] != '%'
    requires k == budget || pos + k == len || data[pos + k] == '%'
    ensures TextRun(data, len, pos, budget) == k
    decreases k
  {
    if k > 0 {
      TextRunIs(data, len, pos + 1, budget - 1, k - 1);
    }
  }

  /** The snapshot after `k` template bytes, and the `%` after them when `percent`, were consumed. */
  function TextProgress(s: Snapshot, k: nat, percent: bool): Snapshot
    requires TemplateOnTop(s)
  {
    if percent then At(s, Top(s).position + k + 1).(token := "%") else At(s, Top(s).position + k)
  }

  /**
   * The text step of a non-empty template, given how the copy ended: `k`
   * bytes free of `%`, stopped by a `%` (when `percent`), by the budget or
   * by the end of the template.
   */
  lemma ConsumeTextAfterCopy(s: Snapshot, maxLen: nat, k: nat, percent: bool)
    requires Inv(s) && TemplateOnTop(s) && Top(s).templateLen > 0
    requires var t := Top(s);
             k <= maxLen && t.position + k <= t.templateLen &&
             (forall i :: t.position <= i < t.position + k ==> t.templateData[i] != '%') &&
             (percent ==> k < maxLen && t.position + k < t.templateLen && t.templateData[t.position + k] == '%') &&
             (!percent ==> k == maxLen || t.position + k == t.templateLen)
    ensures var t := Top(s);
            var out := t.templateData[t.position..t.position + k];
            ConsumeText(s, maxLen) ==
              if percent then
                Step(MakeState(BuildingPlaceholder, true).(bytesWritten := k), TextProgress(s, k, true), out)
              else if k > 0 then
                Step(MakeWritten(k, Text, k < maxLen), TextProgress(s, k, false), out)
              else if t.position >= t.templateLen then
                Step(TemplateCompletion(s.stack), s, [])
              else
                Step(MakeState(Text, false), s, [])
  {
    var t := Top(s);
    TextRunIs(t.templateData, t.templateLen, t.position, maxLen, k);
    if k == 0 {
      assert t.(position := t.position + k) == t;
      WithTopSame(s);
    }
  }

  /**
   * `consumeTemplateText`: copies template bytes until `%`, the end of the
   * template or `maxLen`. A `%` is consumed and starts a token `"%"`; an
   * exhausted template completes.
   */
  function ConsumeText(s: Snapshot, maxLen: nat): (r: Step)
    requires Inv(s)
    ensures Inv(r.after) && |r.output| == r.outcome.bytesWritten <= maxLen && r.after.processed == s.processed
  {
    if !TemplateOnTop(s) then Step(MakeError(), s, [])
    else
      var t := Top(s);
      if t.templateLen == 0 then Step(TemplateCompletion(s.stack), s, [])
      else
        var k := TextRun(t.templateData, t.templateLen, t.position, maxLen);
        var out := t.templateData[t.position..t.position + k];
        if k < maxLen && t.position + k < t.templateLen then
          Step(MakeState(BuildingPlaceholder, true).(bytesWritten := k),
               WithTop(s, t.(position := t.position + k + 1)).(token := "%"), out)
        else if k > 0 then
          Step(MakeWritten(k, Text, k < maxLen), WithTop(s, t.(position := t.position + k)), out)
        else if t.position >= t.templateLen then
          Step(TemplateCompletion(s.stack), WithTop(s, t.(position := t.position + k)), [])
        else
          Step(MakeState(Text, false), WithTop(s, t.(position := t.position + k)), [])
  }

  // ---------------------------------------------------------------------------
  // BUILDING_PLACEHOLDER

  /** Longest token the accumulator holds (its last byte is kept for the terminator). */
  const MaxTokenLength: nat := PlaceholderNameSize - 1

  /**
   * Token accumulation from `pos`: bytes are appended until the closing `%`
   * (the third component is then true), the token reaching
   * `MaxTokenLength` bytes, or the end of the template.
   */
  function Accumulate(data: CString, len: nat, pos: nat, tok: CString): (r: (CString, nat, bool))
    requires pos <= len <= |data|
    decreases len - pos
    ensures pos <= r.1 <= len && r.0 == tok + data[pos..r.1]
    ensures |tok| <= MaxTokenLength ==> |r.0| <= MaxTokenLength
    ensures r.2 ==> pos < r.1 && data[r.1 - 1] == '%' && '%' !in data[pos..r.1 - 1]
    ensures !r.2 ==> '%' !in data[pos..r.1] && (|r.0| >= MaxTokenLength || r.1 == len)
  {
    if |tok| >= MaxTokenLength || pos >= len then (tok, pos, false)
    else if data[pos] == '%' then (tok + ['%'], pos + 1, true)
    else
      var r := Accumulate(data, len, pos + 1, tok + [data[pos]]);
      assert data[pos..r.1] == [data[pos]] + data[pos + 1..r.1];
      r
  }

  /**
   * `Accumulate` once it is known where it stops: after `k` bytes, the last
   * one a `%` when `closed`, the others free of `%`, and otherwise at the
   * length bound or the end of the template.
   */
  lemma {:induction false} AccumulateIs(data: CString, len: nat, pos: nat, tok: CString, k: nat, closed: bool)
    requires pos + k <= len <= |data| && |tok| + k <= MaxTokenLength
    requires forall i :: pos <= i < pos + k && !(closed && i == pos + k - 1) ==> data[i] != '%'
    requires closed ==> 0 < k && data[pos + k - 1] == '%'
    requires !closed ==> |tok| + k == MaxTokenLength || pos + k == len
    ensures Accumulate(data, len, pos, tok) == (tok + data[pos..pos + k], pos + k, closed)
    decreases k
  {
    if k == 0 {
      assert tok + data[pos..pos] == tok;
    } else if closed && k == 1 {
      assert data[pos..pos + 1] == ['%'];
    } else {
      AccumulateIs(data, len, pos + 1, tok + [data[pos]], k - 1, closed);
      assert tok + [data[pos]] + data[pos + 1..pos + k] == tok + data[pos..pos + k];
    }
  }

  /** The snapshot after `k` more template bytes went into the token. */
  function TokenProgress(s: Snapshot, k: nat): Snapshot
    requires TemplateOnTop(s) && Top(s).position + k <= |Top(s).templateData|
  {
    var t := Top(s);
    At(s, t.position + k).(token := s.token + t.templateData[t.position..t.position + k])
  }

  lemma TokenProgressZero(s: Snapshot)
    requires TemplateOnTop(s) && Top(s).position <= |Top(s).templateData|
    ensures TokenProgress(s, 0) == s
  {
    var t := Top(s);
    assert s.token + t.templateData[t.position..t.position] == s.token;
    WithTopSame(s);
  }

  /** Reading the next byte and appending it to the token is one step of `TokenProgress`. */
  lemma TokenProgressNext(s: Snapshot, k: nat)
    requires Inv(s) && TemplateOnTop(s) && Top(s).position + k < Top(s).templateLen
    requires |s.token| + k < MaxTokenLength
    ensures var t := Top(s); var r := ReadChar(TokenProgress(s, k));
            r.0 == t.templateData[t.position + k] &&
            r.1.(token := r.1.token + [r.0]) == TokenProgress(s, k + 1)
  {
    var t := Top(s);
    AtAt(s, t.position + k, t.position + k + 1);
    assert s.token + t.templateData[t.position..t.position + k] + [t.templateData[t.position + k]] ==
           s.token + t.templateData[t.position..t.position + k + 1];
  }

  /**
   * `BuildToken` once it is known where accumulation stops: after `k`
   * bytes, closed by a `%` or cut off by the length bound or the end.
   */
  lemma BuildTokenAfterRead(s: Snapshot, reg: Registered, k: nat, closed: bool)
    requires Inv(s) && TemplateOnTop(s)
    requires var t := Top(s);
             t.position + k <= t.templateLen && |s.token| + k <= MaxTokenLength &&
             (forall i :: t.position <= i < t.position + k && !(closed && i == t.position + k - 1) ==>
                            t.templateData[i] != '%') &&
             (closed ==> 0 < k && t.templateData[t.position + k - 1] == '%') &&
             (!closed ==> |s.token| + k == MaxTokenLength || t.position + k == t.templateLen)
    ensures var s1 := TokenProgress(s, k);
            BuildToken(s, reg) ==
              if closed then Resolve(s1, reg)
              else if |s.token| + k >= MaxTokenLength then Step(MakeState(Text, true), s1.(token := []), [])
              else Step(TemplateCompletion(s1.stack), s1.(token := []), [])
  {
    var t := Top(s);
    AccumulateIs(t.templateData, t.templateLen, t.position, s.token, k, closed);
  }

  /**
   * `buildPlaceholderToken`: accumulates the token; a closing `%` hands
   * over to `Resolve`, a token that grows too long is dropped and TEXT
   * resumes, a token cut off by the end of the template is dropped and
   * the template completes.
   */
  function BuildToken(s: Snapshot, reg: Registered): (r: Step)
    requires Inv(s)
    ensures Inv(r.after) && r.output == [] && r.outcome.bytesWritten == 0 && r.after.processed == s.processed
    ensures !TemplateOnTop(s) ==> r == Step(MakeError(), s, [])
  {
    if !TemplateOnTop(s) then Step(MakeError(), s, [])
    else
      var t := Top(s);
      var a := Accumulate(t.templateData, t.templateLen, t.position, s.token);
      var s1 := WithTop(s, t.(position := a.1)).(token := a.0);
      if a.2 then Resolve(s1, reg)
      else if |a.0| >= MaxTokenLength then Step(MakeState(Text, true), s1.(token := []), [])
      else Step(TemplateCompletion(s1.stack), s1.(token := []), [])
  }

  /** The first override with exactly this name; the overrides are scanned in order. */
  function FindOverride(overrides: seq<PlaceholderEntry>, name: CString): (r: Option<nat>)
    ensures r.Some? ==> r.value < |overrides| && overrides[r.value].name == name &&
                        forall j :: 0 <= j < r.value ==> overrides[j].name != name
    ensures r.None? <==> forall j :: 0 <= j < |overrides| ==> overrides[j].name != name
  {
    if |overrides| == 0 then None
    else if overrides[0].name == name then Some(0)
    else match FindOverride(overrides[1..], name)
      case None => None
      case Some(i) => Some(i + 1)
  }

  /** The entry a token resolves to: the registry first, then the top template's overrides. */
  function ResolveEntry(s: Snapshot, reg: Registered): Option<PlaceholderEntry>
  {
    var fromRegistry := if reg.Some? then Lookup(reg.value, Some(s.token)) else None;
    if fromRegistry.Some? then fromRegistry
    else if TemplateOnTop(s) then
      match FindOverride(Top(s).overrides, s.token)
      case None => None
      case Some(i) => Some(Top(s).overrides[i])
    else None
  }

  /** The frame kind pushed for an entry and the state rendering continues in. */
  function PushFor(source: PlaceholderSource): (ContextType, RenderState)
  {
    match source
    case ProgmemData(_) => (PlaceholderDataContext, RenderingContext)
    case RamData(_) => (PlaceholderDataContext, RenderingContext)
    case ProgmemTemplate(_) => (PlaceholderTemplateContext, Text)
    case DynamicTemplate(_) => (PlaceholderDynamicTemplateContext, Text)
    case Conditional(_) => (PlaceholderConditionalContext, RenderingContext)
    case Iterator(_) => (PlaceholderIteratorContext, RenderingContext)
  }

  /**
   * `resolvePlaceholder`: the token is cleared; an unknown name renders
   * nothing and TEXT resumes, a known one asks for its frame to be pushed.
   */
  function Resolve(s: Snapshot, reg: Registered): (r: Step)
    requires Inv(s)
    ensures Inv(r.after) && r.after == s.(token := []) && r.output == []
    ensures r.outcome.bytesWritten == 0 && r.outcome.popCount == 0 && r.outcome.repeat
    ensures r.outcome.push.NoPush? <==> ResolveEntry(s, reg).None?
    ensures r.outcome.push.NoPush? ==> r.outcome.nextState == Text
    ensures r.outcome.push.Push? ==>
              r.outcome.push.entry == ResolveEntry(s, reg).value &&
              (r.outcome.push.kind, r.outcome.nextState) == PushFor(r.outcome.push.entry.source)
  {
    var cleared := s.(token := []);
    match ResolveEntry(s, reg)
    case None => Step(MakeState(Text, true), cleared, [])
    case Some(e) =>
      var p := PushFor(e.source);
      Step(MakeState(p.1, true).(push := Push(p.0, e)), cleared, [])
  }

  // ---------------------------------------------------------------------------
  // RENDERING_CONTEXT

  /**
   * `streamPlaceholderData`: the next chunk of the top data frame's bytes.
   * Without a registry the frame is abandoned; once nothing more comes it
   * unwinds, ending a conditional parent too.
   */
  function StreamData(s: Snapshot, reg: Registered, maxLen: nat): (r: Step)
    requires Inv(s) && |s.stack| > 0 && Top(s).DataFrame?
    ensures Inv(r.after) && |r.output| == r.outcome.bytesWritten <= maxLen && r.after.processed == s.processed
    ensures reg.None? ==> r == Step(Unwind(s.stack, 1), s, [])
    ensures reg.Some? && |r.output| > 0 ==>
              var f := Top(s);
              f.offset + |r.output| <= |Payload(f.entry.source)| &&
              r.output == Payload(f.entry.source)[f.offset..f.offset + |r.output|] &&
              r.after == WithTop(s, DataFrame(f.name, f.entry, f.offset + |r.output|)) &&
              r.outcome == MakeWritten(|r.output|, RenderingContext, |r.output| < maxLen)
    ensures reg.Some? && |r.output| == 0 ==> r == Step(DataCompletion(s.stack), s, [])
    ensures reg.Some? ==>
              |r.output| == ChunkLength(|Payload(Top(s).entry.source)|, Top(s).offset, maxLen, ChunkCap(Top(s).entry.source))
  {
    var f := Top(s);
    if reg.None? then Step(Unwind(s.stack, 1), s, [])
    else if f.offset >= |Payload(f.entry.source)| then Step(DataCompletion(s.stack), s, [])
    else
      var out := RenderedChunk(Some(f.entry), f.offset, maxLen);
      if |out| > 0 then
        Step(MakeWritten(|out|, RenderingContext, |out| < maxLen), WithTop(s, DataFrame(f.name, f.entry, f.offset + |out|)), out)
      else Step(DataCompletion(s.stack), s, [])
  }

  /** The iterator frame after its first entry: the handle opened and `handleOpen` recorded. */
  function Opened(f: Frame, d: IteratorDescriptor): (g: Frame)
    requires f.IteratorFrame?
    ensures g.IteratorFrame? && g.initialized && g.name == f.name && g.entry == f.entry
    ensures g.iteratorDescriptor == f.iteratorDescriptor && g.cursor == f.cursor
    ensures f.initialized ==> g == f
    ensures !f.initialized ==>
              g.handleNonNull == (if d.open.Callback? then d.open.result else d.userDataNonNull) &&
              (g.handleOpen <==> d.hasClose && d.open.Callback? && g.handleNonNull)
  {
    if f.initialized then f
    else
      var handle := if d.open.Callback? then d.open.result else d.userDataNonNull;
      f.(handleNonNull := handle, initialized := true, handleOpen := d.hasClose && handle && d.open.Callback?)
  }

  /** The iterator frame once `next` has been called on it: opened, one answer further. */
  function Advanced(f: Frame): (g: Frame)
    requires f.IteratorFrame? && f.iteratorDescriptor.Some?
    ensures g.IteratorFrame? && g.name == f.name && g.cursor == f.cursor + 1
  {
    var g := Opened(f, f.iteratorDescriptor.value);
    g.(cursor := f.cursor + 1)
  }

  /** The template frame an iterator pushes for one item. */
  function ItemFrame(name: CString, item: IteratorItem): Frame
  {
    TemplateFrame(name, ItemText(item), ItemLength(item), item.templateIsProgmem, 0, item.placeholders)
  }

  /**
   * `processIteratorContext`: opens the handle on first entry, asks for the
   * next item and pushes its template; COMPLETE closes an open handle and
   * unwinds, ERROR closes the handle and fails.
   */
  function IteratorStep(s: Snapshot): (r: Step)
    requires Inv(s) && |s.stack| > 0 && Top(s).IteratorFrame?
    ensures Inv(r.after) && r.output == [] && r.outcome.bytesWritten == 0 && r.after.processed == s.processed
    ensures r.after.closes <= s.closes + 1
  {
    var f := Top(s);
    if f.iteratorDescriptor.None? || f.iteratorDescriptor.value.next.NullCallback? then
      Step(MakeError(), s, [])
    else
      var d := f.iteratorDescriptor.value;
      var g := Advanced(f);
      match NextStep(d.next.result, f.cursor)
      case ItemReady(item) =>
        assert WellFormedItem(d.next.result.items[f.cursor]);
        var s1 := WithTop(s, g);
        if item.templateData.None? then Step(MakeState(RenderingContext, true), s1, [])
        else if |s1.stack| >= MaxRenderingDepth then Step(MakeError(), Pushed(s1, ItemFrame(f.name, item)), [])
        else Step(MakeState(Text, true), Pushed(s1, ItemFrame(f.name, item)), [])
      case Complete =>
        var closing := g.handleOpen && d.hasClose;
        var h := g.(handleOpen := if closing then false else g.handleOpen, handleNonNull := false);
        var s1 := WithTop(s, h).(closes := s.closes + if closing then 1 else 0);
        Step(Unwind(s1.stack, 1), s1, [])
      case Failed =>
        var closing := d.hasClose && (g.handleOpen || g.handleNonNull);
        var h := g.(handleOpen := false, handleNonNull := false);
        Step(MakeError(), WithTop(s, h).(closes := s.closes + if closing then 1 else 0), [])
  }

  /** `emitActiveContext`: dispatch on the kind of the top frame. */
  function Emit(s: Snapshot, reg: Registered, maxLen: nat): (r: Step)
    requires Inv(s)
    ensures Inv(r.after) && |r.output| == r.outcome.bytesWritten <= maxLen && r.after.processed == s.processed
    ensures |s.stack| == 0 ==> r == Step(MakeComplete(), s, [])
  {
    if |s.stack| == 0 then Step(MakeComplete(), s, [])
    else match Top(s)
      case TemplateFrame(_, _, _, _, _, _) => ConsumeText(s, maxLen)
      case DataFrame(_, _, _) => StreamData(s, reg, maxLen)
      case TemplatePlaceholderFrame(_, _) => Step(MakeState(Text, true), s, [])
      case DynamicTemplateFrame(_, _, _, _, _) => Step(MakeState(Text, true), s, [])
      case ConditionalFrame(_, _, _, _, _, _) => Step(MakeState(RenderingContext, true), s, [])
      case IteratorFrame(_, _, _, _, _, _, _) => IteratorStep(s)
  }

  // ---------------------------------------------------------------------------
  // Stack commands

  /** The delegate a conditional's branch names (none for SKIP). */
  function BranchTarget(d: ConditionalDescriptor): Option<CString>
    requires d.evaluate.Callback?
  {
    match d.evaluate.result
    case Skip => None
    case TrueBranch => d.truePlaceholder
    case FalseBranch => d.falsePlaceholder
  }

  /** A push that fails on overflow: the flag says whether the frame went on. */
  function PushOne(s: Snapshot, f: Frame): (r: (bool, Snapshot))
    requires Inv(s) && WellFormedFrame(f)
    ensures Inv(r.1) && r.0 == (|s.stack| < MaxRenderingDepth) && r.1 == Pushed(s, f)
  {
    (|s.stack| < MaxRenderingDepth, Pushed(s, f))
  }

  /**
   * `pushPlaceholderEntry`: pushes the frames that render `e` under
   * `name`. A static or computed template pushes its carrier frame and
   * then the template; a conditional pushes its frame and then, through
   * the registry, its delegate. A failure undoes the frames this call put
   * on, except that an overflow leaves the state at ERROR.
   */
  function PushEntry(s: Snapshot, reg: Registered, e: PlaceholderEntry, name: CString): (r: (bool, Snapshot))
    requires Inv(s) && RegistryOk(reg) && WellFormedEntry(e)
    decreases MaxRenderingDepth - |s.stack|, 1
    ensures Inv(r.1) && r.1.token == s.token && r.1.processed == s.processed
    ensures !r.0 ==> r.1.stack == s.stack && r.1.closes == s.closes
    ensures r.0 ==> |s.stack| < |r.1.stack| && r.1.stack[..|s.stack|] == s.stack && r.1.closes == s.closes
  {
    match e.source
    case ProgmemData(_) => PushOne(s, DataFrame(name, e, 0))
    case RamData(_) => PushOne(s, DataFrame(name, e, 0))
    case ProgmemTemplate(_) => PushStaticTemplate(s, e, name)
    case DynamicTemplate(_) => PushDynamicTemplate(s, e, name)
    case Conditional(_) => PushConditional(s, reg, e, name)
    case Iterator(d) =>
      assert WellFormedSource(e.source);
      PushIterator(s, e, name, d)
  }

  /** A static template: its carrier frame, then the template itself. */
  function PushStaticTemplate(s: Snapshot, e: PlaceholderEntry, name: CString): (r: (bool, Snapshot))
    requires Inv(s) && e.source.ProgmemTemplate?
    ensures Inv(r.1) && r.1.token == s.token && r.1.processed == s.processed && r.1.closes == s.closes
    ensures !r.0 ==> r.1.stack == s.stack
    ensures r.0 <==> |s.stack| + 2 <= MaxRenderingDepth
    ensures r.0 ==> r.1.stack == s.stack + [TemplatePlaceholderFrame(name, e),
                                            TemplateFrame(name, Payload(e.source), |Payload(e.source)|, true, 0, [])]
  {
    var carrier := PushOne(s, TemplatePlaceholderFrame(name, e));
    if !carrier.0 then carrier
    else
      var text := Payload(e.source);
      var inner := PushOne(carrier.1, TemplateFrame(name, text, |text|, true, 0, []));
      if inner.0 then inner else (false, Popped(inner.1))
  }

  /**
   * A computed template: its carrier frame, then the text the getter
   * returns; a missing getter pushes the carrier and undoes it.
   */
  function PushDynamicTemplate(s: Snapshot, e: PlaceholderEntry, name: CString): (r: (bool, Snapshot))
    requires Inv(s) && e.source.DynamicTemplate? && WellFormedEntry(e)
    ensures Inv(r.1) && r.1.token == s.token && r.1.processed == s.processed && r.1.closes == s.closes
    ensures !r.0 ==> r.1.stack == s.stack
    ensures var d := e.source.dynamicDescriptor;
            r.0 <==> d.Some? && d.value.getter.Callback? && |s.stack| + 2 <= MaxRenderingDepth
    ensures r.0 ==> var d := e.source.dynamicDescriptor.value;
                    var text := DynamicText(d);
                    var len := GetDynamicTemplateLength(Some(d), Some(text));
                    r.1.stack == s.stack + [DynamicTemplateFrame(name, e, 0, text, len),
                                            TemplateFrame(name, text, len, false, 0, [])]
  {
    var d := e.source.dynamicDescriptor;
    if d.None? || d.value.getter.NullCallback? then
      var carrier := PushOne(s, DynamicTemplateFrame(name, e, 0, "", 0));
      if !carrier.0 then carrier else (false, Popped(carrier.1))
    else
      assert WellFormedSource(e.source);
      var text := DynamicText(d.value);
      var len := GetDynamicTemplateLength(d, Some(text));
      var carrier := PushOne(s, DynamicTemplateFrame(name, e, 0, text, len));
      if !carrier.0 then carrier
      else
        var inner := PushOne(carrier.1, TemplateFrame(name, text, len, false, 0, []));
        if inner.0 then inner else (false, Popped(inner.1))
  }

  /**
   * A conditional: its frame, with the branch resolved through the
   * registry, and then the delegate entry under the delegate's name.
   */
  function PushConditional(s: Snapshot, reg: Registered, e: PlaceholderEntry, name: CString): (r: (bool, Snapshot))
    requires Inv(s) && RegistryOk(reg) && e.source.Conditional?
    decreases MaxRenderingDepth - |s.stack|, 0
    ensures Inv(r.1) && r.1.token == s.token && r.1.processed == s.processed
    ensures !r.0 ==> r.1.stack == s.stack && r.1.closes == s.closes
    ensures r.0 ==> |s.stack| < |r.1.stack| && r.1.stack[..|s.stack|] == s.stack && r.1.closes == s.closes
  {
    var d := e.source.conditionalDescriptor;
    if d.None? || d.value.evaluate.NullCallback? then (false, s)
    else if |s.stack| >= MaxRenderingDepth then PushOne(s, ConditionalFrame(name, e, d.value, false, None, None))
    else if reg.None? then PushOne(s, ConditionalFrame(name, e, d.value, true, None, None))
    else
      var target := BranchTarget(d.value);
      var delegate := Lookup(reg.value, target);
      if delegate.None? then PushOne(s, ConditionalFrame(name, e, d.value, true, target, None))
      else
        LookupWellFormed(reg.value, target);
        var frame := PushOne(s, ConditionalFrame(name, e, d.value, true, target, delegate));
        var inner := PushEntry(frame.1, reg, delegate.value, target.value);
        if inner.0 then inner else (false, Popped(inner.1))
  }

  /** An iterator frame over descriptor `d`, undone when there is no `next` callback. */
  function PushIterator(s: Snapshot, e: PlaceholderEntry, name: CString, d: Option<IteratorDescriptor>): (r: (bool, Snapshot))
    requires Inv(s) && (d.Some? ==> WellFormedIterator(d.value))
    ensures Inv(r.1) && r.1.token == s.token && r.1.processed == s.processed && r.1.closes == s.closes
    ensures !r.0 ==> r.1.stack == s.stack
    ensures r.0 <==> d.Some? && d.value.next.Callback? && |s.stack| < MaxRenderingDepth
    ensures r.0 ==> r.1.stack == s.stack + [IteratorFrame(name, e, d, false, false, false, 0)]
  {
    var frame := PushOne(s, IteratorFrame(name, e, d, false, false, false, 0));
    if !frame.0 then frame
    else if d.None? || d.value.next.NullCallback? then (false, Popped(frame.1))
    else frame
  }

  lemma LookupWellFormed(entries: seq<PlaceholderEntry>, name: Option<CString>)
    requires WellFormedEntries(entries)
    ensures Lookup(entries, name).Some? ==> WellFormedEntry(Lookup(entries, name).value) && name.Some?
  {
    if name.Some? {
      var i := FindIndex(entries, name.value);
      if i.Some? {
        assert Lookup(entries, name) == Some(entries[i.value]);
      }
    }
  }

  /** Pops `k` frames, failing (with the frames popped so far gone) on underflow. */
  function PopN(s: Snapshot, k: nat): (r: (bool, Snapshot))
    requires Inv(s)
    decreases k
    ensures Inv(r.1) && r.1.token == s.token && r.1.processed == s.processed
    ensures r.0 <==> k <= |s.stack|
    ensures r.0 ==> r.1.stack == s.stack[..|s.stack| - k]
  {
    if k == 0 then (true, s)
    else if |s.stack| == 0 then (false, s)
    else PopN(Popped(s), k - 1)
  }

  /** Popping one more frame, while frames are left, extends `PopN` by one `Popped`. */
  lemma {:induction false} PopNNext(s: Snapshot, k: nat)
    requires Inv(s) && k < |s.stack|
    ensures PopN(s, k + 1) == (true, Popped(PopN(s, k).1))
    decreases k
  {
    if k > 0 {
      PopNNext(Popped(s), k - 1);
    }
  }

  /** Asking for more pops than there are frames fails once the stack is empty. */
  lemma {:induction false} PopNEnd(s: Snapshot, k: nat)
    requires Inv(s) && |s.stack| < k
    ensures PopN(s, k) == (false, PopN(s, |s.stack|).1)
    decreases |s.stack|
  {
    if |s.stack| > 0 {
      PopNEnd(Popped(s), k - 1);
    }
  }

  function ConditionalOf(e: PlaceholderEntry): Option<ConditionalDescriptor>
  {
    if e.source.Conditional? then e.source.conditionalDescriptor else None
  }

  function IteratorOf(e: PlaceholderEntry): Option<IteratorDescriptor>
  {
    if e.source.Iterator? then e.source.descriptor else None
  }

  /** The push half of `applyStackCommands`, by the requested frame kind. */
  function ApplyPush(s: Snapshot, reg: Registered, kind: ContextType, e: PlaceholderEntry): (r: (bool, Snapshot))
    requires Inv(s) && RegistryOk(reg) && WellFormedEntry(e)
    ensures Inv(r.1) && r.1.token == s.token && r.1.processed == s.processed
  {
    match kind
    case PlaceholderDataContext => PushEntry(s, reg, e, e.name)
    case PlaceholderTemplateContext => PushEntry(s, reg, e, e.name)
    case PlaceholderDynamicTemplateContext => PushEntry(s, reg, e, e.name)
    case PlaceholderConditionalContext =>
      var d := ConditionalOf(e);
      if d.None? || d.value.evaluate.NullCallback? then (false, s)
      else
        var target := BranchTarget(d.value);
        var delegate := if target.Some? && reg.Some? then Lookup(reg.value, target) else None;
        if delegate.None? then (true, s)
        else
          LookupWellFormed(reg.value, target);
          var frame := PushOne(s, ConditionalFrame(e.name, e, d.value, true, target, delegate));
          if !frame.0 then frame
          else
            var inner := PushEntry(frame.1, reg, delegate.value, target.value);
            if inner.0 then inner else (false, Popped(inner.1))
    case PlaceholderIteratorContext =>
      assert WellFormedSource(e.source);
      PushIterator(s, e, e.name, IteratorOf(e))
    case TemplateContext =>
      var text := Payload(e.source);
      PushOne(s, TemplateFrame(e.name, text, |text|, true, 0, []))
  }

  /** `applyStackCommands`: the outcome's pops, then its push. */
  function ApplyCommands(s: Snapshot, reg: Registered, o: RenderOutcome): (r: (bool, Snapshot))
    requires Inv(s) && RegistryOk(reg) && (o.push.Push? ==> WellFormedEntry(o.push.entry))
    ensures Inv(r.1) && r.1.token == s.token && r.1.processed == s.processed
    ensures o.popCount > |s.stack| ==> !r.0
    ensures o.push.NoPush? ==> r.0 == (o.popCount <= |s.stack|)
    ensures o.push.NoPush? && r.0 ==> r.1 == PopN(s, o.popCount).1
  {
    var popped := PopN(s, o.popCount);
    if !popped.0 then popped
    else match o.push
      case NoPush => popped
      case Push(kind, e) => ApplyPush(popped.1, reg, kind, e)
  }

  // ---------------------------------------------------------------------------
  // The cycle

  /** The handler the current state selects. */
  function Handle(s: Snapshot, reg: Registered, maxLen: nat): (r: Step)
    requires Inv(s) && RegistryOk(reg) && !Terminal(s.state)
    ensures Inv(r.after) && |r.output| == r.outcome.bytesWritten <= maxLen && r.after.processed == s.processed
    ensures r.outcome.push.Push? ==> WellFormedEntry(r.outcome.push.entry)
  {
    match s.state
    case Text => ConsumeText(s, maxLen)
    case BuildingPlaceholder => BuildToken(s, reg)
    case RenderingContext => Emit(s, reg, maxLen)
  }

  /**
   * `renderChunk`: in COMPLETE or ERROR nothing happens; otherwise the
   * state's handler runs, its stack commands are applied (a failure
   * forces ERROR and discards the write count) and the state becomes the
   * outcome's next state.
   */
  function RenderChunk(s: Snapshot, reg: Registered, maxLen: nat): (r: Step)
    requires Inv(s) && RegistryOk(reg)
    ensures Inv(r.after) && |r.output| == r.outcome.bytesWritten <= maxLen
    ensures s.state == Completed ==> r == Step(MakeComplete(), s, [])
    ensures s.state == Errored ==> r == Step(MakeError(), s, [])
    ensures r.after.state == r.outcome.nextState
    ensures r.outcome.finished <==> r.after.state == Completed
    ensures r.outcome.errored <==> r.after.state == Errored
    ensures r.after.processed == s.processed
  {
    if s.state == Completed then Step(MakeComplete(), s, [])
    else if s.state == Errored then Step(MakeError(), s, [])
    else
      var h := Handle(s, reg, maxLen);
      var applied := ApplyCommands(h.after, reg, h.outcome);
      if !applied.0 then Step(MakeError(), applied.1.(state := Errored), [])
      else
        var o := h.outcome;
        Step(o.(finished := o.nextState == Completed, errored := o.nextState == Errored),
             applied.1.(state := o.nextState), h.output)
  }

  /**
   * The loop of `renderNextChunk` from its `iterations`-th round on, with
   * `remaining` bytes of room and `written` already output: the snapshot it
   * ends in, everything written and the number of rounds run in total.
   */
  function ChunkLoop(s: Snapshot, reg: Registered, remaining: nat, iterations: nat, written: seq<char>): (r: (Snapshot, seq<char>, nat))
    requires Inv(s) && RegistryOk(reg)
    decreases MaxIterations - iterations, 3
    ensures Inv(r.0) && |written| <= |r.1| <= |written| + remaining
    ensures r.0.processed == s.processed + (|r.1| - |written|)
    ensures iterations <= r.2 && (iterations <= MaxIterations ==> r.2 <= MaxIterations)
    ensures remaining == 0 || Terminal(s.state) || iterations >= MaxIterations ==> r == (s, written, iterations)
  {
    if remaining == 0 || Terminal(s.state) then (s, written, iterations)
    else Bounded(s, reg, remaining, iterations, written)
  }

  /** The loop with room left and rendering not over: it runs at most `MaxIterations` rounds. */
  function Bounded(s: Snapshot, reg: Registered, remaining: nat, iterations: nat, written: seq<char>): (r: (Snapshot, seq<char>, nat))
    requires Inv(s) && RegistryOk(reg)
    decreases MaxIterations - iterations, 2
    ensures Inv(r.0) && |written| <= |r.1| <= |written| + remaining
    ensures r.0.processed == s.processed + (|r.1| - |written|)
    ensures iterations <= r.2 && (iterations <= MaxIterations ==> r.2 <= MaxIterations)
    ensures iterations >= MaxIterations ==> r == (s, written, iterations)
  {
    if iterations >= MaxIterations then (s, written, iterations)
    else Round(s, reg, remaining, iterations, written)
  }

  /** Round `iterations` of the loop: one `renderChunk` into the room left, and what follows it. */
  function Round(s: Snapshot, reg: Registered, remaining: nat, iterations: nat, written: seq<char>): (r: (Snapshot, seq<char>, nat))
    requires Inv(s) && RegistryOk(reg) && iterations < MaxIterations
    decreases MaxIterations - iterations, 1
    ensures Inv(r.0) && |written| <= |r.1| <= |written| + remaining
    ensures r.0.processed == s.processed + (|r.1| - |written|)
    ensures iterations < r.2 <= MaxIterations
  {
    LoopAfter(s, reg, remaining, iterations, written, RenderChunk(s, reg, remaining))
  }

  /** A well-formed result of one `renderChunk` call into `room` bytes. */
  ghost predicate RoundOk(s: Snapshot, room: nat, step: Step)
  {
    Inv(step.after) && |step.output| == step.outcome.bytesWritten <= room && step.after.processed == s.processed
  }

  /** Whether the loop stops after a round with outcome `o`. */
  predicate StopsAfter(o: RenderOutcome)
  {
    o.finished || o.errored || (!o.repeat && o.bytesWritten == 0)
  }

  /** The snapshot after a round: the step's, with its bytes counted as processed. */
  function Counted(step: Step): Snapshot
  {
    step.after.(processed := step.after.processed + step.outcome.bytesWritten)
  }

  /** The loop once round `iterations` has produced `step`. */
  function LoopAfter(s: Snapshot, reg: Registered, remaining: nat, iterations: nat, written: seq<char>, step: Step): (r: (Snapshot, seq<char>, nat))
    requires Inv(s) && RegistryOk(reg) && iterations < MaxIterations && RoundOk(s, remaining, step)
    decreases MaxIterations - iterations, 0
    ensures Inv(r.0) && |written| <= |r.1| <= |written| + remaining
    ensures r.0.processed == s.processed + (|r.1| - |written|)
    ensures iterations < r.2 <= MaxIterations
  {
    if StopsAfter(step.outcome) then (Counted(step), written + step.output, iterations + 1)
    else
      ChunkLoop(Counted(step), reg, remaining - step.outcome.bytesWritten, iterations + 1, written + step.output)
  }

  /** A round that can run is `renderChunk` followed by the rest of the loop. */
  lemma LoopRound(s: Snapshot, reg: Registered, remaining: nat, iterations: nat, written: seq<char>)
    requires Inv(s) && RegistryOk(reg)
    requires remaining > 0 && !Terminal(s.state) && iterations < MaxIterations
    ensures RoundOk(s, remaining, RenderChunk(s, reg, remaining))
    ensures ChunkLoop(s, reg, remaining, iterations, written)
            == LoopAfter(s, reg, remaining, iterations, written, RenderChunk(s, reg, remaining))
  {
    assert ChunkLoop(s, reg, remaining, iterations, written) == Bounded(s, reg, remaining, iterations, written);
    assert Bounded(s, reg, remaining, iterations, written) == Round(s, reg, remaining, iterations, written);
  }

  /** A round after which the loop stops: what it ends with. */
  lemma LoopStops(s: Snapshot, reg: Registered, remaining: nat, iterations: nat, written: seq<char>, step: Step)
    requires Inv(s) && RegistryOk(reg) && iterations < MaxIterations && RoundOk(s, remaining, step)
    requires StopsAfter(step.outcome)
    ensures LoopAfter(s, reg, remaining, iterations, written, step) == (Counted(step), written + step.output, iterations + 1)
  {
  }

  /** A round after which the loop goes on from the new snapshot. */
  lemma LoopGoesOn(s: Snapshot, reg: Registered, remaining: nat, iterations: nat, written: seq<char>, step: Step)
    requires Inv(s) && RegistryOk(reg) && iterations < MaxIterations && RoundOk(s, remaining, step)
    requires !StopsAfter(step.outcome)
    ensures Inv(Counted(step))
    ensures LoopAfter(s, reg, remaining, iterations, written, step)
            == ChunkLoop(Counted(step), reg, remaining - step.outcome.bytesWritten, iterations + 1, written + step.output)
  {
  }

  /**
   * A round that can run, and what the loop comes to after it: with `o`,
   * `next` and `out` the round's outcome, counted snapshot and output so far,
   * the loop either ends there or goes on from them with `room` bytes left.
   */
  lemma RoundResult(s: Snapshot, reg: Registered, remaining: nat, iterations: nat, written: seq<char>,
                    total: (Snapshot, seq<char>, nat), o: RenderOutcome, next: Snapshot, out: seq<char>, room: nat)
    requires Inv(s) && RegistryOk(reg) && remaining > 0 && !Terminal(s.state) && iterations < MaxIterations
    requires total == ChunkLoop(s, reg, remaining, iterations, written)
    requires var step := RenderChunk(s, reg, remaining);
             o == step.outcome && next == Counted(step) && out == written + step.output &&
             room + o.bytesWritten == remaining
    ensures Inv(next)
    ensures StopsAfter(o) ==> total == (next, out, iterations + 1)
    ensures !StopsAfter(o) ==> total == ChunkLoop(next, reg, room, iterations + 1, out)
  {
    var step := RenderChunk(s, reg, remaining);
    assert RoundOk(s, remaining, step) && total == LoopAfter(s, reg, remaining, iterations, written, step) by {
      LoopRound(s, reg, remaining, iterations, written);
    }
    StepResult(s, reg, remaining, iterations, written, total, step, o, next, out, room);
  }

  /** `RoundResult` for a given well-formed round `step`. */
  lemma StepResult(s: Snapshot, reg: Registered, remaining: nat, iterations: nat, written: seq<char>,
                   total: (Snapshot, seq<char>, nat), step: Step, o: RenderOutcome, next: Snapshot, out: seq<char>, room: nat)
    requires Inv(s) && RegistryOk(reg) && iterations < MaxIterations && RoundOk(s, remaining, step)
    requires total == LoopAfter(s, reg, remaining, iterations, written, step)
    requires o == step.outcome && next == Counted(step) && out == written + step.output &&
             room + o.bytesWritten == remaining
    ensures Inv(next)
    ensures StopsAfter(o) ==> total == (next, out, iterations + 1)
    ensures !StopsAfter(o) ==> total == ChunkLoop(next, reg, room, iterations + 1, out)
  {
    if StopsAfter(o) {
      LoopStops(s, reg, remaining, iterations, written, step);
    } else {
      LoopGoesOn(s, reg, remaining, iterations, written, step);
    }
  }

  /** `renderNextChunk`: the bytes one call writes and the snapshot it leaves. */
  function NextChunk(s: Snapshot, reg: Registered, maxLen: nat): (r: (Snapshot, seq<char>))
    requires Inv(s) && RegistryOk(reg)
    ensures Inv(r.0) && |r.1| <= maxLen
    ensures Terminal(s.state) ==> r == (s, [])
    ensures r.0.processed == s.processed + |r.1|
  {
    if Terminal(s.state) then (s, [])
    else
      var l := ChunkLoop(s, reg, maxLen, 0, []);
      (l.0, l.1)
  }

  /** Outside COMPLETE and ERROR, `renderNextChunk` is its loop run from round zero. */
  lemma NextChunkIsLoop(s: Snapshot, reg: Registered, maxLen: nat, total: (Snapshot, seq<char>, nat))
    requires Inv(s) && RegistryOk(reg) && !Terminal(s.state) && total == ChunkLoop(s, reg, maxLen, 0, [])
    ensures NextChunk(s, reg, maxLen) == (total.0, total.1)
  {
  }

  /** `initializeContext`: a reset context with the root template pushed and state TEXT. */
  function Initialized(template: CString, isProgmem: bool, closes: nat): (s: Snapshot)
    ensures Inv(s) && s.state == Text && s.token == [] && s.processed == 0
    ensures s.stack == [TemplateFrame("ROOT", template, |template|, isProgmem, 0, [])]
  {
    Snapshot(Text, [TemplateFrame("ROOT", template, |template|, isProgmem, 0, [])], [], 0, closes)
  }
}
