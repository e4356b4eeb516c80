/**
 * The renderer's operations on a live `RenderContext`, each proved to
 * compute what its counterpart in `RenderSpec` describes: the outcome, the
 * context's snapshot afterwards, and the bytes written to the output
 * buffer at `at`, with the rest of the buffer untouched.
 */
module TemplateRenderer {
  import opened TemplateTypes
  import opened PlaceholderRegistry
  import opened TemplateContext
  import opened RenderSpec

  ghost function RegistryObjects(ctx: RenderContext): set<object>
    reads ctx
  {
    if ctx.registry == null then {} else {ctx.registry, ctx.registry.placeholders}
  }

  /** The registry attached to the context, if any, is valid. */
  ghost predicate RegistryReady(ctx: RenderContext)
    reads ctx, RegistryObjects(ctx)
  {
    ctx.registry != null ==> ctx.registry.Valid()
  }

  /** The context is valid and so is the registry attached to it. */
  ghost predicate Ready(ctx: RenderContext)
    reads ctx, ctx.renderingStack, ctx.savedBuffers, ctx.placeholderName, ctx.readBuffer, RegistryObjects(ctx)
  {
    ctx.Valid() && RegistryReady(ctx)
  }

  /** The entries placeholders resolve against. */
  ghost function Reg(ctx: RenderContext): (r: Registered)
    reads ctx, RegistryObjects(ctx)
    requires RegistryReady(ctx)
    ensures RegistryOk(r)
  {
    if ctx.registry == null then None else Some(ctx.registry.Entries())
  }

  /** An output window of `maxLen` bytes at `at` that shares no storage with the context. */
  predicate Writable(ctx: RenderContext, buf: array<char>, at: nat, maxLen: nat)
    reads ctx
  {
    buf != ctx.placeholderName && buf != ctx.readBuffer && at + maxLen <= buf.Length
  }

  /** Only `buf[at..at + n]` may differ from `before`. */
  ghost predicate WroteOnly(buf: array<char>, before: seq<char>, at: nat, n: nat)
    reads buf
  {
    |before| == buf.Length &&
    forall i :: 0 <= i < buf.Length && !(at <= i < at + n) ==> buf[i] == before[i]
  }

  /**
   * `consumeTemplateText`: the copy loop, then the outcome. A `%` ends the
   * loop early and starts a token.
   */
  method ConsumeTemplateText(ctx: RenderContext, buf: array<char>, at: nat, maxLen: nat) returns (o: RenderOutcome)
    requires ctx.Valid() && Writable(ctx, buf, at, maxLen)
    modifies ctx, ctx.renderingStack, ctx.savedBuffers, ctx.readBuffer, ctx.placeholderName, buf
    ensures ctx.Valid() && ctx.registry == old(ctx.registry) && o.bytesWritten <= maxLen
    ensures o == ConsumeText(old(ctx.View()), maxLen).outcome
    ensures ctx.View() == ConsumeText(old(ctx.View()), maxLen).after
    ensures buf[at..at + o.bytesWritten] == ConsumeText(old(ctx.View()), maxLen).output
    ensures WroteOnly(buf, old(buf[..]), at, o.bytesWritten)
  {
    ghost var s0 := ctx.View();
    var top := ctx.CurrentContext();
    if top.None? || !top.value.TemplateFrame? {
      return MakeError();
    }
    var t := top.value;
    if t.templateLen == 0 {
      return TemplateCompletion(ctx.renderingStack[..ctx.renderingDepth]);
    }
    var written, percent := CopyTemplateText(ctx, buf, at, maxLen);
    ConsumeTextAfterCopy(s0, maxLen, written, percent);
    assert buf[at..at + written] == t.templateData[t.position..t.position + written];
    o := TextOutcome(ctx, s0, maxLen, written, percent);
  }

  /** The outcome `consumeTemplateText` reports once its copy loop took `written` bytes. */
  method TextOutcome(ctx: RenderContext, ghost s0: Snapshot, maxLen: nat, written: nat, percent: bool) returns (o: RenderOutcome)
    requires ctx.Valid() && Inv(s0) && TemplateOnTop(s0) && Top(s0).templateLen > 0
    requires var t := Top(s0);
             written <= maxLen && t.position + written <= t.templateLen &&
             (forall i :: t.position <= i < t.position + written ==> t.templateData[i] != '%') &&
             (percent ==> written < maxLen && t.position + written < t.templateLen &&
                          t.templateData[t.position + written] == '%') &&
             (!percent ==> written == maxLen || t.position + written == t.templateLen)
    requires ctx.View() == TextProgress(s0, written, percent)
    ensures o == ConsumeText(s0, maxLen).outcome && o.bytesWritten == written
  {
    ConsumeTextAfterCopy(s0, maxLen, written, percent);
    if percent {
      return MakeState(BuildingPlaceholder, true).(bytesWritten := written);
    }
    if written > 0 {
      o := MakeWritten(written, Text, written < maxLen);
      if written < maxLen {
        o := o.(repeat := true);
      }
      return;
    }
    var cur := ctx.CurrentContext();
    var more := ctx.HasMoreData();
    if cur.value.position >= cur.value.templateLen || !more {
      return TemplateCompletion(ctx.renderingStack[..ctx.renderingDepth]);
    }
    return MakeState(Text, false);
  }

  /**
   * The copy loop of `consumeTemplateText`: template bytes go to the
   * buffer until the budget, the end of the template or a `%`, which is
   * consumed and starts a token.
   */
  method CopyTemplateText(ctx: RenderContext, buf: array<char>, at: nat, maxLen: nat) returns (written: nat, percent: bool)
    requires ctx.Valid() && Writable(ctx, buf, at, maxLen) && TemplateOnTop(ctx.View())
    modifies ctx, ctx.renderingStack, ctx.savedBuffers, ctx.readBuffer, ctx.placeholderName, buf
    ensures ctx.Valid() && ctx.registry == old(ctx.registry)
    ensures var t := Top(old(ctx.View()));
            written <= maxLen && t.position + written <= t.templateLen &&
            (forall i :: t.position <= i < t.position + written ==> t.templateData[i] != '%') &&
            (percent ==> written < maxLen && t.position + written < t.templateLen &&
                         t.templateData[t.position + written] == '%') &&
            (!percent ==> written == maxLen || t.position + written == t.templateLen) &&
            (forall i :: at <= i < at + written ==> buf[i] == t.templateData[t.position + i - at])
    ensures ctx.View() == TextProgress(old(ctx.View()), written, percent)
    ensures WroteOnly(buf, old(buf[..]), at, written)
  {
    ghost var s0 := ctx.View();
    ghost var t := Top(s0);
    AtAt(s0, t.position, t.position);
    written, percent := 0, false;
    var stop := false;
    while written < maxLen && !stop && !percent
      invariant ctx.Valid() && ctx.registry == old(ctx.registry)
      invariant written <= maxLen && t.position + written <= t.templateLen
      invariant ctx.View() == TextProgress(s0, written, percent)
      invariant percent ==> !stop && written < maxLen && t.position + written < t.templateLen &&
                            t.templateData[t.position + written] == '%'
      invariant stop ==> t.position + written == t.templateLen
      invariant forall i :: at <= i < at + written ==> buf[i] == t.templateData[t.position + i - at]
      invariant forall i :: t.position <= i < t.position + written ==> t.templateData[i] != '%'
      invariant WroteOnly(buf, old(buf[..]), at, written)
      decreases maxLen - written, if stop || percent then 0 else 1
    {
      var c;
      stop, percent, c := NextTextByte(ctx, s0, written);
      if !stop && !percent {
        assert c == t.templateData[t.position + (at + written) - at] && t.templateData[t.position + written] != '%';
        buf[at + written] := c;
        written := written + 1;
      }
    }
  }

  /**
   * One round of the copy loop, `k` bytes in: stops at the end of the
   * template, or reads the next byte `c`; a `%` is consumed and starts a
   * token.
   */
  method NextTextByte(ctx: RenderContext, ghost s0: Snapshot, ghost k: nat) returns (stop: bool, percent: bool, c: char)
    requires ctx.Valid() && TemplateOnTop(s0) && Top(s0).position + k <= Top(s0).templateLen
    requires ctx.View() == TextProgress(s0, k, false)
    modifies ctx, ctx.renderingStack, ctx.savedBuffers, ctx.readBuffer, ctx.placeholderName
    ensures ctx.Valid() && ctx.registry == old(ctx.registry)
    ensures stop <==> Top(s0).position + k == Top(s0).templateLen
    ensures !stop ==> c == Top(s0).templateData[Top(s0).position + k] && (percent <==> c == '%')
    ensures stop ==> !percent
    ensures ctx.View() == TextProgress(s0, if stop || percent then k else k + 1, percent)
  {
    var cur := ctx.CurrentContext();
    if cur.value.position >= cur.value.templateLen {
      return true, false, '\0';
    }
    c := ctx.GetNextChar();
    AtAt(s0, Top(s0).position + k, Top(s0).position + k + 1);
    if c == '\0' {
      return true, false, c;
    }
    if c == '%' {
      ctx.StartToken();
      return false, true, c;
    }
    return false, false, c;
  }

  /**
   * `buildPlaceholderToken`: accumulates the token, then hands a closed
   * token to `ResolvePlaceholder`, drops one that grew too long and goes
   * back to TEXT, or drops one cut off by the end of the template and
   * completes the template.
   */
  method BuildPlaceholderToken(ctx: RenderContext) returns (o: RenderOutcome)
    requires Ready(ctx)
    modifies ctx, ctx.renderingStack, ctx.savedBuffers, ctx.readBuffer, ctx.placeholderName
    ensures Ready(ctx) && ctx.registry == old(ctx.registry) && Reg(ctx) == old(Reg(ctx))
    ensures Step(o, ctx.View(), []) == BuildToken(old(ctx.View()), old(Reg(ctx)))
  {
    ghost var s0 := ctx.View();
    var cur := ctx.CurrentContext();
    if cur.None? || !cur.value.TemplateFrame? {
      return MakeError();
    }
    var closed, k := ReadToken(ctx);
    BuildTokenAfterRead(s0, Reg(ctx), k, closed);
    if closed {
      o := ResolvePlaceholder(ctx);
      return;
    }
    if ctx.placeholderPos >= PlaceholderNameSize - 1 {
      ctx.ResetPlaceholder();
      return MakeState(Text, true);
    }
    var more := ctx.HasMoreData();
    if more {
      // The loop only stops short of the bound at the end of the template,
      // so the source's "keep building" outcome is never reached.
      assert false;
    }
    ctx.ResetPlaceholder();
    return TemplateCompletion(ctx.renderingStack[..ctx.renderingDepth]);
  }

  /**
   * The loop of `buildPlaceholderToken`: appends template bytes to the
   * token until the closing `%`, the length bound or the end of the
   * template; `k` counts the bytes taken.
   */
  method ReadToken(ctx: RenderContext) returns (closed: bool, ghost k: nat)
    requires ctx.Valid() && TemplateOnTop(ctx.View())
    modifies ctx, ctx.renderingStack, ctx.savedBuffers, ctx.readBuffer, ctx.placeholderName
    ensures ctx.Valid() && ctx.registry == old(ctx.registry)
    ensures var s0 := old(ctx.View()); var t := Top(s0);
            t.position + k <= t.templateLen && |s0.token| + k <= MaxTokenLength &&
            (forall i :: t.position <= i < t.position + k && !(closed && i == t.position + k - 1) ==>
                           t.templateData[i] != '%') &&
            (closed ==> 0 < k && t.templateData[t.position + k - 1] == '%') &&
            (!closed ==> |s0.token| + k == MaxTokenLength || t.position + k == t.templateLen)
    ensures ctx.View() == TokenProgress(old(ctx.View()), k)
  {
    ghost var s0 := ctx.View();
    ghost var t := Top(s0);
    TokenProgressZero(s0);
    closed, k := false, 0;
    while ctx.placeholderPos < PlaceholderNameSize - 1
      invariant ctx.Valid() && ctx.registry == old(ctx.registry)
      invariant t.position + k <= t.templateLen && ctx.placeholderPos == |s0.token| + k <= MaxTokenLength
      invariant ctx.View() == TokenProgress(s0, k)
      invariant forall i :: t.position <= i < t.position + k ==> t.templateData[i] != '%'
      decreases PlaceholderNameSize - ctx.placeholderPos
    {
      var stop, c := NextTokenByte(ctx, s0, k);
      if stop {
        break;
      }
      k := k + 1;
      if c == '%' {
        closed := true;
        break;
      }
    }
  }

  /** One round of the token loop, `k` bytes in: stops at the end of the template or appends the next byte `c`. */
  method NextTokenByte(ctx: RenderContext, ghost s0: Snapshot, ghost k: nat) returns (stop: bool, c: char)
    requires ctx.Valid() && Inv(s0) && TemplateOnTop(s0) && Top(s0).position + k <= Top(s0).templateLen
    requires |s0.token| + k < MaxTokenLength && ctx.View() == TokenProgress(s0, k)
    modifies ctx, ctx.renderingStack, ctx.savedBuffers, ctx.readBuffer, ctx.placeholderName
    ensures ctx.Valid() && ctx.registry == old(ctx.registry)
    ensures stop <==> Top(s0).position + k == Top(s0).templateLen
    ensures !stop ==> c == Top(s0).templateData[Top(s0).position + k]
    ensures ctx.View() == TokenProgress(s0, if stop then k else k + 1)
  {
    var more := ctx.HasMoreData();
    if !more {
      return true, '\0';
    }
    TokenProgressNext(s0, k);
    c := ctx.GetNextChar();
    if c == '\0' {
      return true, c;
    }
    ctx.AppendToken(c);
    return false, c;
  }

  /**
   * `resolvePlaceholder`: the registry first, then the overrides of the
   * top template; the token is cleared either way and a known entry asks
   * for its frame kind to be pushed.
   */
  method ResolvePlaceholder(ctx: RenderContext) returns (o: RenderOutcome)
    requires Ready(ctx)
    modifies ctx, ctx.placeholderName
    ensures Ready(ctx) && ctx.registry == old(ctx.registry) && Reg(ctx) == old(Reg(ctx))
    ensures Step(o, ctx.View(), []) == Resolve(old(ctx.View()), old(Reg(ctx)))
  {
    var entry := FindEntry(ctx);
    if entry.None? {
      ctx.ResetPlaceholder();
      return MakeState(Text, true);
    }
    var e := entry.value;
    o := MakeState(RenderingContext, true);
    match e.source {
      case ProgmemData(_) =>
        o := o.(push := Push(PlaceholderDataContext, e));
      case RamData(_) =>
        o := o.(push := Push(PlaceholderDataContext, e));
      case ProgmemTemplate(_) =>
        o := o.(push := Push(PlaceholderTemplateContext, e), nextState := Text);
      case DynamicTemplate(_) =>
        o := o.(push := Push(PlaceholderDynamicTemplateContext, e), nextState := Text);
      case Conditional(_) =>
        o := o.(push := Push(PlaceholderConditionalContext, e), nextState := RenderingContext);
      case Iterator(_) =>
        o := o.(push := Push(PlaceholderIteratorContext, e), nextState := RenderingContext);
    }
    ctx.ResetPlaceholder();
  }

  /** The lookup of `resolvePlaceholder`: the registry entry for the token, else the first matching override. */
  method FindEntry(ctx: RenderContext) returns (entry: Option<PlaceholderEntry>)
    requires Ready(ctx)
    ensures entry == ResolveEntry(ctx.View(), Reg(ctx))
  {
    var name: CString := ctx.placeholderName[..ctx.placeholderPos];
    entry := None;
    if ctx.registry != null {
      entry := ctx.registry.GetPlaceholder(Some(name));
    }
    if entry.None? {
      var cur := ctx.CurrentContext();
      if cur.Some? && cur.value.TemplateFrame? {
        var i := FindOverrideIndex(cur.value.overrides, name);
        if i.Some? {
          entry := Some(cur.value.overrides[i.value]);
        }
      }
    }
  }

  /** The override scan of `resolvePlaceholder`: the index of the first entry named `name`. */
  method FindOverrideIndex(overrides: seq<PlaceholderEntry>, name: CString) returns (r: Option<nat>)
    ensures r == FindOverride(overrides, name)
  {
    for i := 0 to |overrides|
      invariant forall j :: 0 <= j < i ==> overrides[j].name != name
    {
      if overrides[i].name == name {
        return Some(i);
      }
    }
    return None;
  }

  /**
   * `streamPlaceholderData`: the next chunk of the top data frame's bytes
   * through the registry's `renderPlaceholder`, its offset moved past
   * them; an exhausted frame unwinds.
   */
  method StreamPlaceholderData(ctx: RenderContext, buf: array<char>, at: nat, maxLen: nat) returns (o: RenderOutcome)
    requires Ready(ctx) && Writable(ctx, buf, at, maxLen)
    requires |ctx.View().stack| > 0 && Top(ctx.View()).DataFrame?
    modifies ctx.renderingStack, buf
    ensures Ready(ctx) && Reg(ctx) == old(Reg(ctx))
    ensures o == StreamData(old(ctx.View()), old(Reg(ctx)), maxLen).outcome
    ensures ctx.View() == StreamData(old(ctx.View()), old(Reg(ctx)), maxLen).after
    ensures buf[at..at + o.bytesWritten] == StreamData(old(ctx.View()), old(Reg(ctx)), maxLen).output
    ensures WroteOnly(buf, old(buf[..]), at, o.bytesWritten)
  {
    var f := ctx.CurrentContext().value;
    var stack := ctx.renderingStack[..ctx.renderingDepth];
    if ctx.registry == null {
      return Unwind(stack, 1);
    }
    var total := |Payload(f.entry.source)|;
    if f.offset >= total {
      return DataCompletion(stack);
    }
    o := StreamChunk(ctx, buf, at, maxLen);
  }

  /** The part of `streamPlaceholderData` that copies a chunk of a frame with bytes left. */
  method StreamChunk(ctx: RenderContext, buf: array<char>, at: nat, maxLen: nat) returns (o: RenderOutcome)
    requires Ready(ctx) && Writable(ctx, buf, at, maxLen) && ctx.registry != null
    requires |ctx.View().stack| > 0 && Top(ctx.View()).DataFrame?
    requires Top(ctx.View()).offset < |Payload(Top(ctx.View()).entry.source)|
    modifies ctx.renderingStack, buf
    ensures Ready(ctx) && Reg(ctx) == old(Reg(ctx))
    ensures o == StreamData(old(ctx.View()), old(Reg(ctx)), maxLen).outcome
    ensures ctx.View() == StreamData(old(ctx.View()), old(Reg(ctx)), maxLen).after
    ensures buf[at..at + o.bytesWritten] == StreamData(old(ctx.View()), old(Reg(ctx)), maxLen).output
    ensures WroteOnly(buf, old(buf[..]), at, o.bytesWritten)
  {
    var f := ctx.CurrentContext().value;
    var n := RenderPlaceholder(Some(f.entry), f.offset, buf, at, maxLen);
    if n > 0 {
      ctx.UpdateCurrentContext(DataFrame(f.name, f.entry, f.offset + n));
      return MakeWritten(n, RenderingContext, n < maxLen);
    }
    return DataCompletion(ctx.renderingStack[..ctx.renderingDepth]);
  }

  /**
   * `processIteratorContext`: opens the handle on first entry, asks `next`
   * for the following item and pushes its template, or ends the iteration
   * on COMPLETE (closing an open handle) and on ERROR (closing any handle).
   */
  method ProcessIteratorContext(ctx: RenderContext) returns (o: RenderOutcome)
    requires ctx.Valid() && |ctx.View().stack| > 0 && Top(ctx.View()).IteratorFrame?
    modifies ctx, ctx.renderingStack, ctx.savedBuffers
    ensures ctx.Valid() && ctx.registry == old(ctx.registry)
    ensures o == IteratorStep(old(ctx.View())).outcome && ctx.View() == IteratorStep(old(ctx.View())).after
  {
    ghost var s0 := ctx.View();
    var f := ctx.CurrentContext().value;
    if f.iteratorDescriptor.None? || f.iteratorDescriptor.value.next.NullCallback? {
      return MakeError();
    }
    var d := f.iteratorDescriptor.value;
    var g := f;
    if !g.initialized {
      var handle := if d.open.Callback? then d.open.result else d.userDataNonNull;
      g := g.(handleNonNull := handle, initialized := true, handleOpen := d.hasClose && handle && d.open.Callback?);
    }
    var step := NextStep(d.next.result, g.cursor);
    g := g.(cursor := g.cursor + 1);
    assert f == Top(s0) && g == Advanced(f);
    match step {
      case ItemReady(item) =>
        assert WellFormedItem(d.next.result.items[f.cursor]);
        ctx.UpdateCurrentContext(g);
        o := PushItem(ctx, f.name, item);
      case Complete =>
        o := FinishIterator(ctx, s0, g);
      case Failed =>
        FailIterator(ctx, s0, g);
        o := MakeError();
    }
  }

  /** The COMPLETE case of `processIteratorContext`: an open handle is closed, then the frame unwinds. */
  method FinishIterator(ctx: RenderContext, ghost s0: Snapshot, g: Frame) returns (o: RenderOutcome)
    requires ctx.Valid() && Inv(s0) && |s0.stack| > 0 && Top(s0).IteratorFrame? && ctx.View() == s0
    requires Top(s0).iteratorDescriptor.Some? && Top(s0).iteratorDescriptor.value.next.Callback?
    requires NextStep(Top(s0).iteratorDescriptor.value.next.result, Top(s0).cursor).Complete?
    requires g == Advanced(Top(s0))
    modifies ctx, ctx.renderingStack
    ensures ctx.Valid() && ctx.registry == old(ctx.registry)
    ensures o == IteratorStep(s0).outcome && ctx.View() == IteratorStep(s0).after
  {
    var d := g.iteratorDescriptor.value;
    var h := g;
    if h.handleOpen && d.hasClose {
      ctx.NoteClose();
      h := h.(handleOpen := false);
    }
    h := h.(handleNonNull := false);
    ctx.UpdateCurrentContext(h);
    o := Unwind(ctx.renderingStack[..ctx.renderingDepth], 1);
  }

  /** The ERROR case of `processIteratorContext`: any handle is closed and the frame marks it gone. */
  method FailIterator(ctx: RenderContext, ghost s0: Snapshot, g: Frame)
    requires ctx.Valid() && Inv(s0) && |s0.stack| > 0 && Top(s0).IteratorFrame? && ctx.View() == s0
    requires Top(s0).iteratorDescriptor.Some? && Top(s0).iteratorDescriptor.value.next.Callback?
    requires NextStep(Top(s0).iteratorDescriptor.value.next.result, Top(s0).cursor).Failed?
    requires g == Advanced(Top(s0))
    modifies ctx, ctx.renderingStack
    ensures ctx.Valid() && ctx.registry == old(ctx.registry)
    ensures IteratorStep(s0).outcome == MakeError() && ctx.View() == IteratorStep(s0).after
  {
    var d := g.iteratorDescriptor.value;
    if d.hasClose && (g.handleOpen || g.handleNonNull) {
      ctx.NoteClose();
    }
    ctx.UpdateCurrentContext(g.(handleOpen := false, handleNonNull := false));
  }

  /** The ITEM_READY case of `processIteratorContext`: pushes the item's template, unless it has none. */
  method PushItem(ctx: RenderContext, name: CString, item: IteratorItem) returns (o: RenderOutcome)
    requires ctx.Valid() && WellFormedItem(item)
    modifies ctx, ctx.renderingStack, ctx.savedBuffers
    ensures ctx.Valid() && ctx.registry == old(ctx.registry)
    ensures item.templateData.None? ==> o == MakeState(RenderingContext, true) && ctx.View() == old(ctx.View())
    ensures item.templateData.Some? ==>
              ctx.View() == Pushed(old(ctx.View()), ItemFrame(name, item)) &&
              o == (if |old(ctx.View()).stack| >= MaxRenderingDepth then MakeError() else MakeState(Text, true))
  {
    if item.templateData.None? {
      return MakeState(RenderingContext, true);
    }
    var text := item.templateData.value;
    var len := item.templateLength;
    if len == 0 {
      len := |text|;
    }
    var ok := ctx.PushContext(TemplateFrame(name, text, len, item.templateIsProgmem, 0, item.placeholders));
    if !ok {
      return MakeError();
    }
    return MakeState(Text, true);
  }

  /** `emitActiveContext`: dispatches on the kind of the top frame. */
  method EmitActiveContext(ctx: RenderContext, buf: array<char>, at: nat, maxLen: nat) returns (o: RenderOutcome)
    requires Ready(ctx) && Writable(ctx, buf, at, maxLen)
    modifies ctx, ctx.renderingStack, ctx.savedBuffers, ctx.readBuffer, ctx.placeholderName, buf
    ensures Ready(ctx) && ctx.registry == old(ctx.registry) && Reg(ctx) == old(Reg(ctx))
    ensures o == Emit(old(ctx.View()), old(Reg(ctx)), maxLen).outcome
    ensures ctx.View() == Emit(old(ctx.View()), old(Reg(ctx)), maxLen).after
    ensures buf[at..at + o.bytesWritten] == Emit(old(ctx.View()), old(Reg(ctx)), maxLen).output
    ensures WroteOnly(buf, old(buf[..]), at, o.bytesWritten)
  {
    var cur := ctx.CurrentContext();
    if cur.None? {
      return MakeComplete();
    }
    match cur.value {
      case TemplateFrame(_, _, _, _, _, _) =>
        o := ConsumeTemplateText(ctx, buf, at, maxLen);
      case DataFrame(_, _, _) =>
        o := StreamPlaceholderData(ctx, buf, at, maxLen);
      case TemplatePlaceholderFrame(_, _) =>
        o := MakeState(Text, true);
      case DynamicTemplateFrame(_, _, _, _, _) =>
        o := MakeState(Text, true);
      case ConditionalFrame(_, _, _, _, _, _) =>
        o := MakeState(RenderingContext, true);
      case IteratorFrame(_, _, _, _, _, _, _) =>
        o := ProcessIteratorContext(ctx);
    }
  }

  // ---------------------------------------------------------------------------
  // Stack commands

  /**
   * `pushPlaceholderEntry`: pushes the frames that render `e` under
   * `name`, by the entry's kind.
   */
  method PushPlaceholderEntry(ctx: RenderContext, e: PlaceholderEntry, name: CString) returns (ok: bool)
    requires ctx.Valid() && RegistryReady(ctx) && WellFormedEntry(e)
    modifies ctx, ctx.renderingStack, ctx.savedBuffers
    decreases MaxRenderingDepth - ctx.renderingDepth, 3
    ensures ctx.Valid() && ctx.registry == old(ctx.registry) && RegistryReady(ctx) && Reg(ctx) == old(Reg(ctx))
    ensures (ok, ctx.View()) == PushEntry(old(ctx.View()), old(Reg(ctx)), e, name)
  {
    match e.source {
      case ProgmemData(_) =>
        ok := ctx.PushContext(DataFrame(name, e, 0));
      case RamData(_) =>
        ok := ctx.PushContext(DataFrame(name, e, 0));
      case ProgmemTemplate(_) =>
        ok := PushStaticTemplateEntry(ctx, e, name);
      case DynamicTemplate(_) =>
        ok := PushDynamicTemplateEntry(ctx, e, name);
      case Conditional(_) =>
        ok := PushConditionalEntry(ctx, e, name);
      case Iterator(d) =>
        assert WellFormedSource(e.source);
        ok := PushIteratorFrame(ctx, e, name, d);
    }
  }

  /** The static-template case: the carrier frame, then the template, the carrier undone on overflow. */
  method PushStaticTemplateEntry(ctx: RenderContext, e: PlaceholderEntry, name: CString) returns (ok: bool)
    requires ctx.Valid() && e.source.ProgmemTemplate?
    modifies ctx, ctx.renderingStack, ctx.savedBuffers
    ensures ctx.Valid() && ctx.registry == old(ctx.registry)
    ensures (ok, ctx.View()) == PushStaticTemplate(old(ctx.View()), e, name)
  {
    ok := ctx.PushContext(TemplatePlaceholderFrame(name, e));
    if !ok {
      return;
    }
    var text := Payload(e.source);
    ok := ctx.PushContext(TemplateFrame(name, text, |text|, true, 0, []));
    if !ok {
      ctx.PopContext();
    }
  }

  /**
   * The computed-template case: the carrier frame goes on first and
   * receives the getter's text; without a getter it is undone.
   */
  method PushDynamicTemplateEntry(ctx: RenderContext, e: PlaceholderEntry, name: CString) returns (ok: bool)
    requires ctx.Valid() && e.source.DynamicTemplate? && WellFormedEntry(e)
    modifies ctx, ctx.renderingStack, ctx.savedBuffers
    ensures ctx.Valid() && ctx.registry == old(ctx.registry)
    ensures (ok, ctx.View()) == PushDynamicTemplate(old(ctx.View()), e, name)
  {
    ghost var s0 := ctx.View();
    ok := ctx.PushContext(DynamicTemplateFrame(name, e, 0, "", 0));
    if !ok {
      return;
    }
    var d := e.source.dynamicDescriptor;
    if d.None? || d.value.getter.NullCallback? {
      ctx.PopContext();
      return false;
    }
    ok := PushDynamicText(ctx, s0, e, name);
  }

  /** The rest of the computed-template case once the carrier frame is on and the getter exists. */
  method PushDynamicText(ctx: RenderContext, ghost s0: Snapshot, e: PlaceholderEntry, name: CString) returns (ok: bool)
    requires ctx.Valid() && Inv(s0) && |s0.stack| < MaxRenderingDepth && WellFormedEntry(e)
    requires e.source.DynamicTemplate? && e.source.dynamicDescriptor.Some?
    requires e.source.dynamicDescriptor.value.getter.Callback?
    requires ctx.View() == Pushed(s0, DynamicTemplateFrame(name, e, 0, "", 0))
    modifies ctx, ctx.renderingStack, ctx.savedBuffers
    ensures ctx.Valid() && ctx.registry == old(ctx.registry)
    ensures (ok, ctx.View()) == PushDynamicTemplate(s0, e, name)
  {
    var d := e.source.dynamicDescriptor;
    assert WellFormedSource(e.source);
    var text: CString := if d.value.getter.result.Some? then d.value.getter.result.value else "";
    var len := GetDynamicTemplateLength(d, Some(text));
    PushedWithTop(s0, DynamicTemplateFrame(name, e, 0, "", 0), DynamicTemplateFrame(name, e, 0, text, len));
    ctx.UpdateCurrentContext(DynamicTemplateFrame(name, e, 0, text, len));
    ok := ctx.PushContext(TemplateFrame(name, text, len, false, 0, []));
    if !ok {
      ctx.PopContext();
    }
  }

  /**
   * The conditional case of `pushPlaceholderEntry`: the conditional frame,
   * its branch evaluated when a registry is attached, and the delegate the
   * branch names pushed on top of it.
   */
  method PushConditionalEntry(ctx: RenderContext, e: PlaceholderEntry, name: CString) returns (ok: bool)
    requires ctx.Valid() && RegistryReady(ctx) && e.source.Conditional?
    modifies ctx, ctx.renderingStack, ctx.savedBuffers
    decreases MaxRenderingDepth - ctx.renderingDepth, 2
    ensures ctx.Valid() && ctx.registry == old(ctx.registry) && RegistryReady(ctx) && Reg(ctx) == old(Reg(ctx))
    ensures (ok, ctx.View()) == PushConditional(old(ctx.View()), old(Reg(ctx)), e, name)
  {
    ghost var s0 := ctx.View();
    var d := e.source.conditionalDescriptor;
    if d.None? || d.value.evaluate.NullCallback? {
      return false;
    }
    ok := ctx.PushContext(ConditionalFrame(name, e, d.value, false, None, None));
    if !ok {
      return;
    }
    ok := ResolveConditionalFrame(ctx, s0, e, name);
  }

  /** The conditional frame is on: the branch is resolved and its delegate looked up and pushed. */
  method ResolveConditionalFrame(ctx: RenderContext, ghost s0: Snapshot, e: PlaceholderEntry, name: CString)
    returns (ok: bool)
    requires ctx.Valid() && RegistryReady(ctx) && Inv(s0) && |s0.stack| < MaxRenderingDepth
    requires e.source.Conditional? && e.source.conditionalDescriptor.Some?
    requires e.source.conditionalDescriptor.value.evaluate.Callback?
    requires ctx.View() == Pushed(s0, ConditionalFrame(name, e, e.source.conditionalDescriptor.value, false, None, None))
    modifies ctx, ctx.renderingStack, ctx.savedBuffers
    decreases MaxRenderingDepth - ctx.renderingDepth + 1, 1
    ensures ctx.Valid() && ctx.registry == old(ctx.registry) && RegistryReady(ctx) && Reg(ctx) == old(Reg(ctx))
    ensures (ok, ctx.View()) == PushConditional(s0, old(Reg(ctx)), e, name)
  {
    var d := e.source.conditionalDescriptor.value;
    var unresolved := ConditionalFrame(name, e, d, false, None, None);
    if ctx.registry == null {
      PushedWithTop(s0, unresolved, ConditionalFrame(name, e, d, true, None, None));
      ctx.UpdateCurrentContext(ConditionalFrame(name, e, d, true, None, None));
      return true;
    }
    var target := BranchTarget(d);
    PushedWithTop(s0, unresolved, ConditionalFrame(name, e, d, true, target, None));
    ctx.UpdateCurrentContext(ConditionalFrame(name, e, d, true, target, None));
    if target.None? {
      return true;
    }
    var delegate := ctx.registry.GetPlaceholder(target);
    if delegate.None? {
      return true;
    }
    ok := PushDelegate(ctx, s0, e, name, target.value, delegate.value);
  }

  /** The delegate found in the registry is recorded in the conditional frame and pushed above it. */
  method PushDelegate(ctx: RenderContext, ghost s0: Snapshot, e: PlaceholderEntry, name: CString,
                      target: CString, delegate: PlaceholderEntry) returns (ok: bool)
    requires ctx.Valid() && RegistryReady(ctx) && ctx.registry != null && Inv(s0) && |s0.stack| < MaxRenderingDepth
    requires e.source.Conditional? && e.source.conditionalDescriptor.Some?
    requires e.source.conditionalDescriptor.value.evaluate.Callback?
    requires BranchTarget(e.source.conditionalDescriptor.value) == Some(target)
    requires Lookup(ctx.registry.Entries(), Some(target)) == Some(delegate)
    requires ctx.View() == Pushed(s0, ConditionalFrame(name, e, e.source.conditionalDescriptor.value, true, Some(target), None))
    modifies ctx, ctx.renderingStack, ctx.savedBuffers
    decreases MaxRenderingDepth - ctx.renderingDepth + 1, 0
    ensures ctx.Valid() && ctx.registry == old(ctx.registry) && RegistryReady(ctx) && Reg(ctx) == old(Reg(ctx))
    ensures (ok, ctx.View()) == PushConditional(s0, old(Reg(ctx)), e, name)
  {
    var d := e.source.conditionalDescriptor.value;
    LookupWellFormed(ctx.registry.Entries(), Some(target));
    var frame := ConditionalFrame(name, e, d, true, Some(target), Some(delegate));
    PushedWithTop(s0, ConditionalFrame(name, e, d, true, Some(target), None), frame);
    ctx.UpdateCurrentContext(frame);
    ok := PushPlaceholderEntry(ctx, delegate, target);
    if !ok {
      ctx.PopContext();
    }
  }

  /** An iterator frame over descriptor `d`, popped again when there is no `next` callback. */
  method PushIteratorFrame(ctx: RenderContext, e: PlaceholderEntry, name: CString, d: Option<IteratorDescriptor>)
    returns (ok: bool)
    requires ctx.Valid() && (d.Some? ==> WellFormedIterator(d.value))
    modifies ctx, ctx.renderingStack, ctx.savedBuffers
    ensures ctx.Valid() && ctx.registry == old(ctx.registry)
    ensures (ok, ctx.View()) == PushIterator(old(ctx.View()), e, name, d)
  {
    ok := ctx.PushContext(IteratorFrame(name, e, d, false, false, false, 0));
    if !ok {
      return;
    }
    if d.None? || d.value.next.NullCallback? {
      ctx.PopContext();
      return false;
    }
  }

  /** The pop loop of `applyStackCommands`: `n` pops, failing on underflow. */
  method PopFrames(ctx: RenderContext, n: nat) returns (ok: bool)
    requires ctx.Valid() && RegistryReady(ctx)
    modifies ctx, ctx.renderingStack, ctx.savedBuffers
    ensures ctx.Valid() && ctx.registry == old(ctx.registry) && RegistryReady(ctx) && Reg(ctx) == old(Reg(ctx))
    ensures (ok, ctx.View()) == PopN(old(ctx.View()), n)
  {
    ghost var s0 := ctx.View();
    for i := 0 to n
      invariant ctx.Valid() && ctx.registry == old(ctx.registry) && RegistryReady(ctx) && Reg(ctx) == old(Reg(ctx))
      invariant i <= |s0.stack| && PopN(s0, i) == (true, ctx.View())
    {
      if ctx.renderingDepth == 0 {
        PopNEnd(s0, n);
        return false;
      }
      PopNNext(s0, i);
      ctx.PopContext();
    }
    return true;
  }

  /** `applyStackCommands`: the outcome's pops, then the push it asks for. */
  method ApplyStackCommands(ctx: RenderContext, o: RenderOutcome) returns (ok: bool)
    requires ctx.Valid() && RegistryReady(ctx) && (o.push.Push? ==> WellFormedEntry(o.push.entry))
    modifies ctx, ctx.renderingStack, ctx.savedBuffers
    ensures ctx.Valid() && ctx.registry == old(ctx.registry) && RegistryReady(ctx) && Reg(ctx) == old(Reg(ctx))
    ensures (ok, ctx.View()) == ApplyCommands(old(ctx.View()), old(Reg(ctx)), o)
  {
    ok := PopFrames(ctx, o.popCount);
    if !ok || o.push.NoPush? {
      return;
    }
    var e := o.push.entry;
    match o.push.kind {
      case PlaceholderDataContext =>
        ok := PushPlaceholderEntry(ctx, e, e.name);
      case PlaceholderTemplateContext =>
        ok := PushPlaceholderEntry(ctx, e, e.name);
      case PlaceholderDynamicTemplateContext =>
        ok := PushPlaceholderEntry(ctx, e, e.name);
      case PlaceholderConditionalContext =>
        ok := PushConditionalCommand(ctx, e);
      case PlaceholderIteratorContext =>
        assert WellFormedSource(e.source);
        ok := PushIteratorFrame(ctx, e, e.name, IteratorOf(e));
      case TemplateContext =>
        var text := Payload(e.source);
        ok := ctx.PushContext(TemplateFrame(e.name, text, |text|, true, 0, []));
    }
  }

  /**
   * The conditional push of `applyStackCommands`: nothing at all for SKIP
   * or an unknown delegate; otherwise the resolved conditional frame and
   * its delegate above it.
   */
  method PushConditionalCommand(ctx: RenderContext, e: PlaceholderEntry) returns (ok: bool)
    requires ctx.Valid() && RegistryReady(ctx) && WellFormedEntry(e)
    modifies ctx, ctx.renderingStack, ctx.savedBuffers
    ensures ctx.Valid() && ctx.registry == old(ctx.registry) && RegistryReady(ctx) && Reg(ctx) == old(Reg(ctx))
    ensures (ok, ctx.View()) == ApplyPush(old(ctx.View()), old(Reg(ctx)), PlaceholderConditionalContext, e)
  {
    var d := ConditionalOf(e);
    if d.None? || d.value.evaluate.NullCallback? {
      return false;
    }
    var target := BranchTarget(d.value);
    if target.None? {
      return true;
    }
    var delegate: Option<PlaceholderEntry> := None;
    if ctx.registry != null {
      delegate := ctx.registry.GetPlaceholder(target);
      LookupWellFormed(ctx.registry.Entries(), target);
    }
    if delegate.None? {
      return true;
    }
    ok := ctx.PushContext(ConditionalFrame(e.name, e, d.value, true, target, delegate));
    if !ok {
      return;
    }
    ok := PushPlaceholderEntry(ctx, delegate.value, target.value);
    if !ok {
      ctx.PopContext();
    }
  }

  // ---------------------------------------------------------------------------
  // The cycle

  /** The handler `renderChunk` runs for the current state. */
  method RunHandler(ctx: RenderContext, buf: array<char>, at: nat, maxLen: nat) returns (o: RenderOutcome)
    requires Ready(ctx) && Writable(ctx, buf, at, maxLen) && !Terminal(ctx.state)
    modifies ctx, ctx.renderingStack, ctx.savedBuffers, ctx.readBuffer, ctx.placeholderName, buf
    ensures Ready(ctx) && ctx.registry == old(ctx.registry) && Reg(ctx) == old(Reg(ctx))
    ensures o == Handle(old(ctx.View()), old(Reg(ctx)), maxLen).outcome
    ensures ctx.View() == Handle(old(ctx.View()), old(Reg(ctx)), maxLen).after
    ensures buf[at..at + o.bytesWritten] == Handle(old(ctx.View()), old(Reg(ctx)), maxLen).output
    ensures WroteOnly(buf, old(buf[..]), at, maxLen)
  {
    match ctx.state {
      case Text =>
        o := ConsumeTemplateText(ctx, buf, at, maxLen);
      case BuildingPlaceholder =>
        o := BuildPlaceholderToken(ctx);
      case RenderingContext =>
        o := EmitActiveContext(ctx, buf, at, maxLen);
    }
  }

  /**
   * `renderChunk`: runs the state's handler, applies its stack commands
   * (a failure forces ERROR) and moves to the outcome's next state.
   */
  method RenderChunk(ctx: RenderContext, buf: array<char>, at: nat, maxLen: nat) returns (o: RenderOutcome)
    requires Ready(ctx) && Writable(ctx, buf, at, maxLen)
    modifies ctx, ctx.renderingStack, ctx.savedBuffers, ctx.readBuffer, ctx.placeholderName, buf
    ensures Ready(ctx) && ctx.registry == old(ctx.registry) && Reg(ctx) == old(Reg(ctx))
    ensures o == RenderSpec.RenderChunk(old(ctx.View()), old(Reg(ctx)), maxLen).outcome
    ensures ctx.View() == RenderSpec.RenderChunk(old(ctx.View()), old(Reg(ctx)), maxLen).after
    ensures buf[at..at + o.bytesWritten] == RenderSpec.RenderChunk(old(ctx.View()), old(Reg(ctx)), maxLen).output
    ensures WroteOnly(buf, old(buf[..]), at, maxLen)
  {
    if ctx.state == Completed {
      return MakeComplete();
    }
    if ctx.state == Errored {
      return MakeError();
    }
    o := RunHandler(ctx, buf, at, maxLen);
    var ok := ApplyStackCommands(ctx, o);
    if !ok {
      ctx.SetState(Errored);
      return MakeError();
    }
    ctx.SetState(o.nextState);
    o := o.(finished := ctx.state == Completed, errored := ctx.state == Errored);
  }

  /**
   * One round of the `renderNextChunk` loop: a `renderChunk` into the free
   * part of the buffer, then the processed-byte count it adds.
   */
  method ChunkRound(ctx: RenderContext, buf: array<char>, at: nat, remaining: nat) returns (o: RenderOutcome)
    requires Ready(ctx) && Writable(ctx, buf, at, remaining)
    modifies ctx, ctx.renderingStack, ctx.savedBuffers, ctx.readBuffer, ctx.placeholderName, buf
    ensures Ready(ctx) && ctx.registry == old(ctx.registry) && Reg(ctx) == old(Reg(ctx))
    ensures o == RenderSpec.RenderChunk(old(ctx.View()), old(Reg(ctx)), remaining).outcome
    ensures ctx.View() == Counted(RenderSpec.RenderChunk(old(ctx.View()), old(Reg(ctx)), remaining))
    ensures buf[..at + o.bytesWritten] == old(buf[..at]) + RenderSpec.RenderChunk(old(ctx.View()), old(Reg(ctx)), remaining).output
    ensures WroteOnly(buf, old(buf[..]), at, remaining)
  {
    ghost var before := buf[..];
    o := RenderChunk(ctx, buf, at, remaining);
    ctx.AddProcessed(o.bytesWritten);
    assert buf[..at + o.bytesWritten] == buf[..at] + buf[at..at + o.bytesWritten];
    assert buf[..at] == before[..at];
  }

  /**
   * A round of the `renderNextChunk` loop, against the loop's own
   * specification: `total` is what the loop ends with, and the round
   * either ends it or leaves the rest of the loop to run from the new
   * state, with its bytes counted in `written` and taken from `remaining`.
   */
  method LoopRoundStep(ctx: RenderContext, buf: array<char>, written: nat, remaining: nat, iterations: nat,
                       ghost reg: Registered, ghost total: (Snapshot, seq<char>, nat), ghost orig: seq<char>)
    returns (o: RenderOutcome, written': nat, remaining': nat, iterations': nat)
    requires Ready(ctx) && Writable(ctx, buf, written, remaining) && reg == Reg(ctx)
    requires remaining > 0 && !Terminal(ctx.state) && iterations < MaxIterations
    requires total == ChunkLoop(ctx.View(), reg, remaining, iterations, buf[..written])
    requires WroteOnly(buf, orig, 0, written + remaining)
    modifies ctx, ctx.renderingStack, ctx.savedBuffers, ctx.readBuffer, ctx.placeholderName, buf
    ensures Ready(ctx) && ctx.registry == old(ctx.registry) && Reg(ctx) == reg
    ensures written' + remaining' == written + remaining && iterations' == iterations + 1
    ensures StopsAfter(o) ==> total == (ctx.View(), buf[..written'], iterations')
    ensures !StopsAfter(o) ==> total == ChunkLoop(ctx.View(), reg, remaining', iterations', buf[..written'])
    ensures WroteOnly(buf, orig, 0, written' + remaining')
  {
    ghost var s := ctx.View();
    ghost var w := buf[..written];
    o := ChunkRound(ctx, buf, written, remaining);
    written', remaining', iterations' := written + o.bytesWritten, remaining - o.bytesWritten, iterations + 1;
    RoundResult(s, reg, remaining, iterations, w, total, o, ctx.View(), buf[..written'], remaining');
  }

  /**
   * `renderNextChunk`: runs `renderChunk` on the rest of the buffer until
   * it is full, rendering ends, a step makes no progress or the iteration
   * bound is reached; the result is the number of bytes written.
   */
  method RenderNextChunk(ctx: RenderContext, buf: array<char>, maxLen: nat) returns (written: nat)
    requires Ready(ctx) && Writable(ctx, buf, 0, maxLen)
    modifies ctx, ctx.renderingStack, ctx.savedBuffers, ctx.readBuffer, ctx.placeholderName, buf
    ensures Ready(ctx) && ctx.registry == old(ctx.registry) && Reg(ctx) == old(Reg(ctx))
    ensures written <= maxLen
    ensures (ctx.View(), buf[..written]) == NextChunk(old(ctx.View()), old(Reg(ctx)), maxLen)
    ensures WroteOnly(buf, old(buf[..]), 0, maxLen)
  {
    if ctx.IsComplete() || ctx.HasError() {
      return 0;
    }
    NextChunkIsLoop(ctx.View(), Reg(ctx), maxLen, ChunkLoop(ctx.View(), Reg(ctx), maxLen, 0, []));
    written := RunChunkLoop(ctx, buf, maxLen);
  }

  /** The loop of `renderNextChunk`, from round zero with the whole buffer free. */
  method RunChunkLoop(ctx: RenderContext, buf: array<char>, maxLen: nat) returns (written: nat)
    requires Ready(ctx) && Writable(ctx, buf, 0, maxLen)
    modifies ctx, ctx.renderingStack, ctx.savedBuffers, ctx.readBuffer, ctx.placeholderName, buf
    ensures Ready(ctx) && ctx.registry == old(ctx.registry) && Reg(ctx) == old(Reg(ctx))
    ensures written <= maxLen
    ensures (ctx.View(), buf[..written], 0) == ChunkLoop(old(ctx.View()), old(Reg(ctx)), maxLen, 0, []).(2 := 0)
    ensures WroteOnly(buf, old(buf[..]), 0, maxLen)
  {
    ghost var reg := Reg(ctx);
    ghost var total := ChunkLoop(ctx.View(), reg, maxLen, 0, []);
    ghost var orig := buf[..];
    written := 0;
    var iterations: nat := 0;
    var remaining: nat := maxLen;
    while remaining > 0 && !ctx.IsComplete() && !ctx.HasError() && iterations < MaxIterations
      invariant Ready(ctx) && ctx.registry == old(ctx.registry) && Reg(ctx) == reg
      invariant written + remaining == maxLen && iterations <= MaxIterations
      invariant total == ChunkLoop(ctx.View(), reg, remaining, iterations, buf[..written])
      invariant WroteOnly(buf, orig, 0, maxLen)
      decreases MaxIterations - iterations
    {
      var o;
      o, written, remaining, iterations := LoopRoundStep(ctx, buf, written, remaining, iterations, reg, total, orig);
      if StopsAfter(o) {
        return;
      }
    }
  }

  /** `initializeContext`: resets the context and pushes the root template, ready for TEXT. */
  method InitializeContext(ctx: RenderContext, template: CString, isProgmem: bool)
    requires ctx.Valid()
    modifies ctx, ctx.renderingStack, ctx.savedBuffers, ctx.placeholderName
    ensures ctx.Valid() && ctx.registry == old(ctx.registry)
    ensures ctx.View() == Initialized(template, isProgmem, old(ctx.View()).closes)
  {
    ctx.Reset();
    var ok := ctx.PushContext(TemplateFrame("ROOT", template, |template|, isProgmem, 0, []));
    if !ok {
      // A freshly reset stack always has room for the root template.
      assert false;
    }
    ctx.SetState(Text);
  }

  /** The two-argument `initializeContext`: the template lives in flash. */
  method InitializeProgmemContext(ctx: RenderContext, template: CString)
    requires ctx.Valid()
    modifies ctx, ctx.renderingStack, ctx.savedBuffers, ctx.placeholderName
    ensures ctx.Valid() && ctx.registry == old(ctx.registry)
    ensures ctx.View() == Initialized(template, true, old(ctx.View()).closes)
  {
    InitializeContext(ctx, template, true);
  }
}
