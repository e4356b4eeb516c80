/**
 * Properties of the renderer's state machine: what single `renderChunk`
 * rounds do in the situations the engine is built around, what one
 * `renderNextChunk` call and a whole rendering produce, and the facts
 * about the stack, the registry and iterators they rest on.
 */
module RenderProperties {
  import opened TemplateTypes
  import opened PlaceholderRegistry
  import opened TemplateContext
  import opened RenderSpec

  // ---------------------------------------------------------------------------
  // Stack and registry

  /** A push that fits followed by a pop gives the stack back; only a popped open iterator counts a close. */
  lemma PopUndoesPush(s: Snapshot, f: Frame)
    requires |s.stack| < MaxRenderingDepth
    ensures Popped(Pushed(s, f)) == s.(closes := s.closes + if ClosesOnPop(f) then 1 else 0)
  {
    assert (s.stack + [f])[..|s.stack|] == s.stack;
  }

  /** At full depth every placeholder push fails and leaves the stack as it was. */
  lemma FullStackRefusesPush(s: Snapshot, reg: Registered, e: PlaceholderEntry, name: CString)
    requires Inv(s) && RegistryOk(reg) && WellFormedEntry(e) && |s.stack| == MaxRenderingDepth
    ensures !PushEntry(s, reg, e, name).0 && PushEntry(s, reg, e, name).1.stack == s.stack
  {
  }

  /**
   * A static template placeholder needs two slots (its carrier frame and
   * the template frame): without them the push fails, the stack is as
   * before and the FSM is in ERROR.
   */
  lemma NestedTemplateOverflow(s: Snapshot, e: PlaceholderEntry, name: CString)
    requires Inv(s) && e.source.ProgmemTemplate? && |s.stack| + 2 > MaxRenderingDepth
    ensures var r := PushStaticTemplate(s, e, name);
            !r.0 && r.1.stack == s.stack && r.1.state == Errored && r.1.closes == s.closes
  {
  }

  /** A conditional entry whose evaluated branch names a registered delegate. */
  predicate DelegateFound(reg: Registered, e: PlaceholderEntry)
  {
    var d := ConditionalOf(e);
    d.Some? && d.value.evaluate.Callback? && BranchTarget(d.value).Some? && reg.Some? &&
    Lookup(reg.value, BranchTarget(d.value)).Some?
  }

  /** The delegate entry a found branch names. */
  function Delegate(reg: Registered, e: PlaceholderEntry): PlaceholderEntry
    requires DelegateFound(reg, e)
  {
    Lookup(reg.value, BranchTarget(ConditionalOf(e).value)).value
  }

  /** The name of the delegate a found branch names. */
  function DelegateName(reg: Registered, e: PlaceholderEntry): CString
    requires DelegateFound(reg, e)
  {
    BranchTarget(ConditionalOf(e).value).value
  }

  /** The resolved conditional frame the command pushes below the delegate. */
  function ResolvedFrame(reg: Registered, e: PlaceholderEntry): Frame
    requires DelegateFound(reg, e)
  {
    var d := ConditionalOf(e).value;
    ConditionalFrame(e.name, e, d, true, BranchTarget(d), Lookup(reg.value, BranchTarget(d)))
  }

  /**
   * The conditional push command. Without a descriptor or evaluator it
   * fails and changes nothing; with no delegate to render (SKIP, a missing
   * branch name, no registry or an unregistered name) it succeeds and
   * changes nothing. A found delegate goes on the stack above the resolved
   * conditional frame, by the frames its own kind pushes: one data frame,
   * a carrier and the template for a static or computed template, one
   * iterator frame; when the delegate's push fails the conditional frame is
   * taken off again, and a stack without room for the frames is left as it
   * was, in ERROR.
   */
  lemma ConditionalPushCommand(s: Snapshot, reg: Registered, e: PlaceholderEntry)
    requires Inv(s) && RegistryOk(reg) && WellFormedEntry(e)
    ensures var d := ConditionalOf(e);
            d.None? || d.value.evaluate.NullCallback? ==>
              ApplyPush(s, reg, PlaceholderConditionalContext, e) == (false, s)
    ensures var d := ConditionalOf(e);
            d.Some? && d.value.evaluate.Callback? && !DelegateFound(reg, e) ==>
              ApplyPush(s, reg, PlaceholderConditionalContext, e) == (true, s)
    ensures DelegateFound(reg, e) && |s.stack| >= MaxRenderingDepth ==>
              ApplyPush(s, reg, PlaceholderConditionalContext, e) == (false, s.(state := Errored))
    ensures DelegateFound(reg, e) && |s.stack| < MaxRenderingDepth ==>
              var inner := PushEntry(s.(stack := s.stack + [ResolvedFrame(reg, e)]), reg, Delegate(reg, e),
                                     DelegateName(reg, e));
              var r := ApplyPush(s, reg, PlaceholderConditionalContext, e);
              r.0 == inner.0 && (r.0 ==> r.1 == inner.1) && (!r.0 ==> r.1 == inner.1.(stack := s.stack))
    ensures DelegateFound(reg, e) && (Delegate(reg, e).source.ProgmemData? || Delegate(reg, e).source.RamData?) ==>
              ApplyPush(s, reg, PlaceholderConditionalContext, e) ==
                if |s.stack| + 2 <= MaxRenderingDepth then
                  (true, s.(stack := s.stack + [ResolvedFrame(reg, e), DataFrame(DelegateName(reg, e), Delegate(reg, e), 0)]))
                else (false, s.(state := Errored))
    ensures DelegateFound(reg, e) && Delegate(reg, e).source.ProgmemTemplate? ==>
              var t := Payload(Delegate(reg, e).source);
              var n := DelegateName(reg, e);
              ApplyPush(s, reg, PlaceholderConditionalContext, e) ==
                if |s.stack| + 3 <= MaxRenderingDepth then
                  (true, s.(stack := s.stack + [ResolvedFrame(reg, e), TemplatePlaceholderFrame(n, Delegate(reg, e)),
                                                TemplateFrame(n, t, |t|, true, 0, [])]))
                else (false, s.(state := Errored))
    ensures DelegateFound(reg, e) && Delegate(reg, e).source.DynamicTemplate? ==>
              var dd := Delegate(reg, e).source.dynamicDescriptor;
              var r := ApplyPush(s, reg, PlaceholderConditionalContext, e);
              (r.0 <==> dd.Some? && dd.value.getter.Callback? && |s.stack| + 3 <= MaxRenderingDepth) &&
              (r.0 ==> var text := DynamicText(dd.value);
                       var len := GetDynamicTemplateLength(dd, Some(text));
                       r.1 == s.(stack := s.stack + [ResolvedFrame(reg, e),
                                                     DynamicTemplateFrame(DelegateName(reg, e), Delegate(reg, e), 0, text, len),
                                                     TemplateFrame(DelegateName(reg, e), text, len, false, 0, [])])) &&
              (!r.0 ==> r.1.stack == s.stack && r.1.closes == s.closes)
    ensures DelegateFound(reg, e) && Delegate(reg, e).source.Iterator? ==>
              var id := Delegate(reg, e).source.descriptor;
              var r := ApplyPush(s, reg, PlaceholderConditionalContext, e);
              (r.0 <==> id.Some? && id.value.next.Callback? && |s.stack| + 2 <= MaxRenderingDepth) &&
              (r.0 ==> r.1 == s.(stack := s.stack + [ResolvedFrame(reg, e),
                                                     IteratorFrame(DelegateName(reg, e), Delegate(reg, e), id, false, false, false, 0)])) &&
              (!r.0 ==> r.1.stack == s.stack && r.1.closes == s.closes)
  {
    if DelegateFound(reg, e) {
      if |s.stack| >= MaxRenderingDepth {
        ConditionalAtFullDepth(s, reg, e);
      } else {
        ConditionalBelowFullDepth(s, reg, e);
      }
      var de := Delegate(reg, e);
      if de.source.ProgmemData? || de.source.RamData? {
        ConditionalDataDelegate(s, reg, e);
      } else if de.source.ProgmemTemplate? {
        ConditionalTemplateDelegate(s, reg, e);
      } else if de.source.DynamicTemplate? {
        ConditionalDynamicDelegate(s, reg, e);
      } else if de.source.Iterator? {
        ConditionalIteratorDelegate(s, reg, e);
      }
    }
  }

  /** At full depth the resolved conditional frame does not fit: ERROR, nothing pushed. */
  lemma ConditionalAtFullDepth(s: Snapshot, reg: Registered, e: PlaceholderEntry)
    requires Inv(s) && RegistryOk(reg) && WellFormedEntry(e) && DelegateFound(reg, e)
    requires |s.stack| >= MaxRenderingDepth
    ensures ApplyPush(s, reg, PlaceholderConditionalContext, e) == (false, s.(state := Errored))
  {
    LookupWellFormed(reg.value, BranchTarget(ConditionalOf(e).value));
  }

  /** Below full depth the result is the delegate's push above the resolved frame, undone on failure. */
  lemma ConditionalBelowFullDepth(s: Snapshot, reg: Registered, e: PlaceholderEntry)
    requires Inv(s) && RegistryOk(reg) && WellFormedEntry(e) && DelegateFound(reg, e)
    requires |s.stack| < MaxRenderingDepth
    ensures Inv(s.(stack := s.stack + [ResolvedFrame(reg, e)])) && WellFormedEntry(Delegate(reg, e))
    ensures var inner := PushEntry(s.(stack := s.stack + [ResolvedFrame(reg, e)]), reg, Delegate(reg, e),
                                   DelegateName(reg, e));
            var r := ApplyPush(s, reg, PlaceholderConditionalContext, e);
            r.0 == inner.0 && (r.0 ==> r.1 == inner.1) && (!r.0 ==> r.1 == inner.1.(stack := s.stack))
  {
    var f := ResolvedFrame(reg, e);
    var s1 := s.(stack := s.stack + [f]);
    LookupWellFormed(reg.value, BranchTarget(ConditionalOf(e).value));
    assert Pushed(s, f) == s1;
    var inner := PushEntry(s1, reg, Delegate(reg, e), DelegateName(reg, e));
    if !inner.0 {
      assert inner.1.stack == s1.stack && !ClosesOnPop(f);
      assert s1.stack[..|s1.stack| - 1] == s.stack;
      assert Popped(inner.1) == inner.1.(stack := s.stack);
    }
  }

  /** A data delegate: the resolved frame and one data frame, or ERROR without room for both. */
  lemma ConditionalDataDelegate(s: Snapshot, reg: Registered, e: PlaceholderEntry)
    requires Inv(s) && RegistryOk(reg) && WellFormedEntry(e) && DelegateFound(reg, e)
    requires Delegate(reg, e).source.ProgmemData? || Delegate(reg, e).source.RamData?
    ensures ApplyPush(s, reg, PlaceholderConditionalContext, e) ==
              if |s.stack| + 2 <= MaxRenderingDepth then
                (true, s.(stack := s.stack + [ResolvedFrame(reg, e), DataFrame(DelegateName(reg, e), Delegate(reg, e), 0)]))
              else (false, s.(state := Errored))
  {
    if |s.stack| >= MaxRenderingDepth {
      ConditionalAtFullDepth(s, reg, e);
    } else {
      ConditionalBelowFullDepth(s, reg, e);
      var f := ResolvedFrame(reg, e);
      var s1 := s.(stack := s.stack + [f]);
      var df := DataFrame(DelegateName(reg, e), Delegate(reg, e), 0);
      assert PushEntry(s1, reg, Delegate(reg, e), DelegateName(reg, e)) == (|s1.stack| < MaxRenderingDepth, Pushed(s1, df));
      assert s1.stack + [df] == s.stack + [f, df];
    }
  }

  /** A static template delegate: the resolved frame, the carrier and the template, or ERROR without room. */
  lemma ConditionalTemplateDelegate(s: Snapshot, reg: Registered, e: PlaceholderEntry)
    requires Inv(s) && RegistryOk(reg) && WellFormedEntry(e) && DelegateFound(reg, e)
    requires Delegate(reg, e).source.ProgmemTemplate?
    ensures var t := Payload(Delegate(reg, e).source);
            var n := DelegateName(reg, e);
            ApplyPush(s, reg, PlaceholderConditionalContext, e) ==
              if |s.stack| + 3 <= MaxRenderingDepth then
                (true, s.(stack := s.stack + [ResolvedFrame(reg, e), TemplatePlaceholderFrame(n, Delegate(reg, e)),
                                              TemplateFrame(n, t, |t|, true, 0, [])]))
              else (false, s.(state := Errored))
  {
    if |s.stack| >= MaxRenderingDepth {
      ConditionalAtFullDepth(s, reg, e);
    } else {
      ConditionalBelowFullDepth(s, reg, e);
      var f := ResolvedFrame(reg, e);
      var s1 := s.(stack := s.stack + [f]);
      var de := Delegate(reg, e);
      var n := DelegateName(reg, e);
      var t := Payload(de.source);
      assert PushEntry(s1, reg, de, n) == PushStaticTemplate(s1, de, n);
      StaticTemplatePush(s1, de, n);
      assert s1.stack + [TemplatePlaceholderFrame(n, de), TemplateFrame(n, t, |t|, true, 0, [])] ==
             s.stack + [f, TemplatePlaceholderFrame(n, de), TemplateFrame(n, t, |t|, true, 0, [])];
    }
  }

  /** A computed template delegate: the resolved frame, the carrier and the computed template. */
  lemma ConditionalDynamicDelegate(s: Snapshot, reg: Registered, e: PlaceholderEntry)
    requires Inv(s) && RegistryOk(reg) && WellFormedEntry(e) && DelegateFound(reg, e)
    requires Delegate(reg, e).source.DynamicTemplate?
    ensures var dd := Delegate(reg, e).source.dynamicDescriptor;
            var r := ApplyPush(s, reg, PlaceholderConditionalContext, e);
            (r.0 <==> dd.Some? && dd.value.getter.Callback? && |s.stack| + 3 <= MaxRenderingDepth) &&
            (r.0 ==> var text := DynamicText(dd.value);
                     var len := GetDynamicTemplateLength(dd, Some(text));
                     r.1 == s.(stack := s.stack + [ResolvedFrame(reg, e),
                                                   DynamicTemplateFrame(DelegateName(reg, e), Delegate(reg, e), 0, text, len),
                                                   TemplateFrame(DelegateName(reg, e), text, len, false, 0, [])])) &&
            (!r.0 ==> r.1.stack == s.stack && r.1.closes == s.closes)
  {
    if |s.stack| >= MaxRenderingDepth {
      ConditionalAtFullDepth(s, reg, e);
    } else {
      ConditionalBelowFullDepth(s, reg, e);
      var f := ResolvedFrame(reg, e);
      var s1 := s.(stack := s.stack + [f]);
      var de := Delegate(reg, e);
      var n := DelegateName(reg, e);
      assert PushEntry(s1, reg, de, n) == PushDynamicTemplate(s1, de, n);
      DynamicTemplatePush(s1, de, n);
      var dd := de.source.dynamicDescriptor;
      if dd.Some? && dd.value.getter.Callback? && |s.stack| + 3 <= MaxRenderingDepth {
        var text := DynamicText(dd.value);
        var len := GetDynamicTemplateLength(dd, Some(text));
        assert s1.stack + [DynamicTemplateFrame(n, de, 0, text, len), TemplateFrame(n, text, len, false, 0, [])] ==
               s.stack + [f, DynamicTemplateFrame(n, de, 0, text, len), TemplateFrame(n, text, len, false, 0, [])];
      }
    }
  }

  /** An iterator delegate: the resolved frame and a fresh iterator frame. */
  lemma ConditionalIteratorDelegate(s: Snapshot, reg: Registered, e: PlaceholderEntry)
    requires Inv(s) && RegistryOk(reg) && WellFormedEntry(e) && DelegateFound(reg, e)
    requires Delegate(reg, e).source.Iterator?
    ensures var id := Delegate(reg, e).source.descriptor;
            var r := ApplyPush(s, reg, PlaceholderConditionalContext, e);
            (r.0 <==> id.Some? && id.value.next.Callback? && |s.stack| + 2 <= MaxRenderingDepth) &&
            (r.0 ==> r.1 == s.(stack := s.stack + [ResolvedFrame(reg, e),
                                                   IteratorFrame(DelegateName(reg, e), Delegate(reg, e), id, false, false, false, 0)])) &&
            (!r.0 ==> r.1.stack == s.stack && r.1.closes == s.closes)
  {
    if |s.stack| >= MaxRenderingDepth {
      ConditionalAtFullDepth(s, reg, e);
    } else {
      ConditionalBelowFullDepth(s, reg, e);
      var f := ResolvedFrame(reg, e);
      var s1 := s.(stack := s.stack + [f]);
      var de := Delegate(reg, e);
      var n := DelegateName(reg, e);
      var id := de.source.descriptor;
      assert WellFormedSource(de.source);
      assert PushEntry(s1, reg, de, n) == PushIterator(s1, de, n, id);
      IteratorPush(s1, de, n, id);
      assert s1.stack + [IteratorFrame(n, de, id, false, false, false, 0)] ==
             s.stack + [f, IteratorFrame(n, de, id, false, false, false, 0)];
    }
  }

  /** A static template push changes only the stack when it succeeds, and only the state (to ERROR) when it fails. */
  lemma StaticTemplatePush(s1: Snapshot, de: PlaceholderEntry, n: CString)
    requires Inv(s1) && de.source.ProgmemTemplate?
    ensures var r := PushStaticTemplate(s1, de, n);
            var t := Payload(de.source);
            (r.0 ==> r.1 == s1.(stack := s1.stack + [TemplatePlaceholderFrame(n, de), TemplateFrame(n, t, |t|, true, 0, [])])) &&
            (!r.0 ==> r.1 == s1.(state := Errored))
  {
    var carrier := PushOne(s1, TemplatePlaceholderFrame(n, de));
    if carrier.0 {
      var text := Payload(de.source);
      var inner := PushOne(carrier.1, TemplateFrame(n, text, |text|, true, 0, []));
      if !inner.0 {
        assert carrier.1.stack[..|carrier.1.stack| - 1] == s1.stack;
      } else {
        assert carrier.1.stack + [TemplateFrame(n, text, |text|, true, 0, [])] ==
               s1.stack + [TemplatePlaceholderFrame(n, de), TemplateFrame(n, text, |text|, true, 0, [])];
      }
    }
  }

  /** A successful computed template push changes only the stack. */
  lemma DynamicTemplatePush(s1: Snapshot, de: PlaceholderEntry, n: CString)
    requires Inv(s1) && de.source.DynamicTemplate? && WellFormedEntry(de)
    ensures var r := PushDynamicTemplate(s1, de, n);
            r.0 ==> var d := de.source.dynamicDescriptor.value;
                    var text := DynamicText(d);
                    var len := GetDynamicTemplateLength(Some(d), Some(text));
                    r.1 == s1.(stack := s1.stack + [DynamicTemplateFrame(n, de, 0, text, len),
                                                    TemplateFrame(n, text, len, false, 0, [])])
  {
    var d := de.source.dynamicDescriptor;
    if d.Some? && d.value.getter.Callback? && |s1.stack| + 2 <= MaxRenderingDepth {
      assert WellFormedSource(de.source);
      var text := DynamicText(d.value);
      var len := GetDynamicTemplateLength(d, Some(text));
      var carrier := PushOne(s1, DynamicTemplateFrame(n, de, 0, text, len));
      assert carrier.1.stack + [TemplateFrame(n, text, len, false, 0, [])] ==
             s1.stack + [DynamicTemplateFrame(n, de, 0, text, len), TemplateFrame(n, text, len, false, 0, [])];
    }
  }

  /** A successful iterator push changes only the stack. */
  lemma IteratorPush(s1: Snapshot, de: PlaceholderEntry, n: CString, id: Option<IteratorDescriptor>)
    requires Inv(s1) && (id.Some? ==> WellFormedIterator(id.value))
    ensures var r := PushIterator(s1, de, n, id);
            r.0 ==> r.1 == s1.(stack := s1.stack + [IteratorFrame(n, de, id, false, false, false, 0)])
  {
  }

  /**
   * A registration shadows the earlier ones: the newest entry answers for
   * its name, and every other name is looked up as before.
   */
  lemma LookupAfterAppend(entries: seq<PlaceholderEntry>, e: PlaceholderEntry, name: CString)
    ensures Lookup(entries + [e], Some(e.name)) == Some(e)
    ensures name != e.name ==> Lookup(entries + [e], Some(name)) == Lookup(entries, Some(name))
  {
    assert (entries + [e])[..|entries|] == entries;
    if name != e.name {
      match FindIndex(entries, name)
      case None =>
      case Some(i) => assert (entries + [e])[i] == entries[i];
    }
  }

  /** An override named like a registered entry is never used: the registry answers first. */
  lemma RegistryBeforeOverrides(s: Snapshot, entries: seq<PlaceholderEntry>, j: nat)
    requires j < |entries| && entries[j].name == s.token
    ensures ResolveEntry(s, Some(entries)).Some?
    ensures exists i :: 0 <= i < |entries| && j <= i && ResolveEntry(s, Some(entries)) == Some(entries[i])
  {
    var i := FindIndex(entries, s.token);
    assert i.Some?;
    assert j <= i.value;
  }

  /** Without a registered entry of that name, the first override of the top template answers. */
  lemma OverrideWhenUnregistered(s: Snapshot, reg: Registered, j: nat)
    requires TemplateOnTop(s) && (reg.None? || Lookup(reg.value, Some(s.token)).None?)
    requires j < |Top(s).overrides| && Top(s).overrides[j].name == s.token
    requires forall i :: 0 <= i < j ==> Top(s).overrides[i].name != s.token
    ensures ResolveEntry(s, reg) == Some(Top(s).overrides[j])
  {
    var i := FindOverride(Top(s).overrides, s.token);
    assert i.Some?;
  }

  // ---------------------------------------------------------------------------
  // TEXT

  /**
   * `consumeTemplateText` copies template bytes verbatim and in order,
   * never a `%`; a `%` it stops at is consumed and starts the token `"%"`.
   */
  lemma ConsumeTextCopies(s: Snapshot, maxLen: nat)
    requires Inv(s)
    ensures var r := ConsumeText(s, maxLen);
            !TemplateOnTop(s) ==> r == Step(MakeError(), s, [])
    ensures var r := ConsumeText(s, maxLen);
            TemplateOnTop(s) ==>
              var t := Top(s);
              t.position + |r.output| <= t.templateLen &&
              r.output == t.templateData[t.position..t.position + |r.output|] && '%' !in r.output
    ensures var r := ConsumeText(s, maxLen);
            TemplateOnTop(s) && r.outcome.nextState == BuildingPlaceholder ==>
              var t := Top(s);
              t.position + |r.output| < t.templateLen && t.templateData[t.position + |r.output|] == '%' &&
              r.after == At(s, t.position + |r.output| + 1).(token := "%")
    ensures var r := ConsumeText(s, maxLen);
            TemplateOnTop(s) && r.outcome.nextState != BuildingPlaceholder ==>
              r.after == At(s, Top(s).position + |r.output|)
  {
    if TemplateOnTop(s) {
      var t := Top(s);
      if t.templateLen == 0 {
        assert t.(position := t.position) == t;
        WithTopSame(s);
      } else {
        var k := TextRun(t.templateData, t.templateLen, t.position, maxLen);
        assert forall i :: t.position <= i < t.position + k ==> t.templateData[i] != '%';
        assert '%' !in t.templateData[t.position..t.position + k];
      }
    }
  }

  /** The template on top has no `%` from its position on. */
  predicate PlainFrom(t: Frame)
    requires t.TemplateFrame?
  {
    forall i :: t.position <= i < t.templateLen && i < |t.templateData| ==> t.templateData[i] != '%'
  }

  /** With no `%` ahead, `consumeTemplateText` copies as much of the rest of the template as fits. */
  lemma PlainText(s: Snapshot, maxLen: nat)
    requires Inv(s) && TemplateOnTop(s) && PlainFrom(Top(s))
    requires Top(s).position < Top(s).templateLen && maxLen > 0
    ensures var t := Top(s);
            var k := Min(maxLen, t.templateLen - t.position);
            ConsumeText(s, maxLen) ==
              Step(MakeWritten(k, Text, k < maxLen), At(s, t.position + k), t.templateData[t.position..t.position + k])
  {
    var t := Top(s);
    ConsumeTextAfterCopy(s, maxLen, Min(maxLen, t.templateLen - t.position), false);
  }

  /** In TEXT with no `%` ahead, one round copies as much of the rest as fits and stays in TEXT. */
  lemma PlainTextRound(s: Snapshot, reg: Registered, maxLen: nat)
    requires Inv(s) && RegistryOk(reg) && s.state == Text && TemplateOnTop(s) && PlainFrom(Top(s))
    requires Top(s).position < Top(s).templateLen && maxLen > 0
    ensures var t := Top(s);
            var k := Min(maxLen, t.templateLen - t.position);
            RenderChunk(s, reg, maxLen) ==
              Step(MakeWritten(k, Text, k < maxLen), At(s, t.position + k), t.templateData[t.position..t.position + k])
  {
    PlainText(s, maxLen);
    PoppingRound(s, reg, maxLen, ConsumeText(s, maxLen));
  }

  /** In TEXT, the bytes before the next `%` are copied and the `%` starts the token `"%"`. */
  lemma TextRoundToPercent(s: Snapshot, reg: Registered, maxLen: nat, k: nat)
    requires Inv(s) && RegistryOk(reg) && s.state == Text && TemplateOnTop(s)
    requires var t := Top(s);
             k < maxLen && t.position + k < t.templateLen && t.templateData[t.position + k] == '%' &&
             forall i :: t.position <= i < t.position + k ==> t.templateData[i] != '%'
    ensures var t := Top(s);
            RenderChunk(s, reg, maxLen) ==
              Step(MakeState(BuildingPlaceholder, true).(bytesWritten := k),
                   At(s, t.position + k + 1).(token := "%", state := BuildingPlaceholder),
                   t.templateData[t.position..t.position + k])
  {
    var t := Top(s);
    ConsumeTextAfterCopy(s, maxLen, k, true);
    var h := Step(MakeState(BuildingPlaceholder, true).(bytesWritten := k), At(s, t.position + k + 1).(token := "%"),
                  t.templateData[t.position..t.position + k]);
    assert Handle(s, reg, maxLen) == h;
    PoppingRound(s, reg, maxLen, h);
  }

  /**
   * A round whose handler asks only for pops that the stack can take: the
   * pops are applied and the outcome's state is entered.
   */
  lemma PoppingRound(s: Snapshot, reg: Registered, maxLen: nat, h: Step)
    requires Inv(s) && RegistryOk(reg) && !Terminal(s.state) && Handle(s, reg, maxLen) == h
    requires h.outcome.push.NoPush? && h.outcome.popCount <= |h.after.stack|
    ensures var o := h.outcome;
            RenderChunk(s, reg, maxLen) ==
              Step(o.(finished := o.nextState == Completed, errored := o.nextState == Errored),
                   PopN(h.after, o.popCount).1.(state := o.nextState), h.output)
  {
  }

  /** Popping one frame that closes nothing leaves everything but the stack alone. */
  lemma PopOne(x: Snapshot)
    requires Inv(x) && |x.stack| > 0 && !ClosesOnPop(Top(x))
    ensures PopN(x, 1) == (true, x.(stack := x.stack[..|x.stack| - 1]))
  {
    PopNNext(x, 0);
    assert Popped(x) == x.(stack := x.stack[..|x.stack| - 1]);
  }

  /** Popping two frames that close nothing leaves everything but the stack alone. */
  lemma PopTwo(x: Snapshot)
    requires Inv(x) && |x.stack| >= 2 && !ClosesOnPop(Top(x)) && !ClosesOnPop(x.stack[|x.stack| - 2])
    ensures PopN(x, 2) == (true, x.(stack := x.stack[..|x.stack| - 2]))
  {
    var p1 := x.(stack := x.stack[..|x.stack| - 1]);
    PopOne(x);
    PopNNext(x, 1);
    assert Top(p1) == x.stack[|x.stack| - 2];
    assert p1.stack[..|p1.stack| - 1] == x.stack[..|x.stack| - 2];
    assert Popped(p1) == x.(stack := x.stack[..|x.stack| - 2]);
  }

  /** The pops of a template completion remove the template and its carrier, closing nothing. */
  lemma CompletionPops(x: Snapshot)
    requires Inv(x) && TemplateOnTop(x)
    ensures var n := TemplateCompletion(x.stack).popCount;
            n <= |x.stack| && PopN(x, n) == (true, x.(stack := x.stack[..|x.stack| - n]))
  {
    if |x.stack| >= 2 && WrapsTemplate(x.stack[|x.stack| - 2]) {
      PopTwo(x);
    } else {
      PopOne(x);
    }
  }

  /**
   * An exhausted template completes: it goes, with the frame that carried
   * it, and rendering resumes in the state the frame below selects
   * (COMPLETE once the stack is empty). Nothing is written.
   */
  lemma TemplateEndRound(s: Snapshot, reg: Registered, maxLen: nat)
    requires Inv(s) && RegistryOk(reg) && (s.state == Text || s.state == RenderingContext) && TemplateOnTop(s)
    requires Top(s).position == Top(s).templateLen
    ensures var n := if |s.stack| >= 2 && WrapsTemplate(s.stack[|s.stack| - 2]) then 2 else 1;
            var rest := s.stack[..|s.stack| - n];
            var r := RenderChunk(s, reg, maxLen);
            r.output == [] && r.after == s.(stack := rest, state := ResumeState(rest)) &&
            (r.outcome.finished <==> |rest| == 0) && !r.outcome.errored &&
            r.outcome.bytesWritten == 0 && (StopsAfter(r.outcome) <==> |rest| == 0)
  {
    var t := Top(s);
    if t.templateLen > 0 {
      ConsumeTextAfterCopy(s, maxLen, 0, false);
    }
    var h := Step(TemplateCompletion(s.stack), s, []);
    assert Handle(s, reg, maxLen) == h;
    CompletionPops(s);
    PoppingRound(s, reg, maxLen, h);
  }

  // ---------------------------------------------------------------------------
  // BUILDING_PLACEHOLDER

  /**
   * A token closed by its `%` that names neither a registered entry nor an
   * override of the top template renders nothing; TEXT resumes right after
   * the closing `%`.
   */
  lemma UnknownTokenDropped(s: Snapshot, reg: Registered, maxLen: nat, k: nat)
    requires Inv(s) && RegistryOk(reg) && s.state == BuildingPlaceholder && TemplateOnTop(s)
    requires var t := Top(s);
             0 < k && t.position + k <= t.templateLen && |s.token| + k <= MaxTokenLength &&
             t.templateData[t.position + k - 1] == '%' &&
             forall i :: t.position <= i < t.position + k - 1 ==> t.templateData[i] != '%'
    requires var t := Top(s);
             var name := s.token + t.templateData[t.position..t.position + k];
             (reg.None? || Lookup(reg.value, Some(name)).None?) && FindOverride(t.overrides, name).None?
    ensures RenderChunk(s, reg, maxLen) ==
              Step(MakeState(Text, true), At(s, Top(s).position + k).(token := [], state := Text), [])
  {
    var t := Top(s);
    BuildTokenAfterRead(s, reg, k, true);
    var h := Step(MakeState(Text, true), TokenProgress(s, k).(token := []), []);
    assert Handle(s, reg, maxLen) == h;
    PoppingRound(s, reg, maxLen, h);
  }

  /** A token that reaches `MaxTokenLength` bytes without a closing `%` is dropped and TEXT resumes. */
  lemma LongTokenDropped(s: Snapshot, reg: Registered, maxLen: nat)
    requires Inv(s) && RegistryOk(reg) && s.state == BuildingPlaceholder && TemplateOnTop(s)
    requires var t := Top(s); var k := MaxTokenLength - |s.token|;
             t.position + k <= t.templateLen &&
             forall i :: t.position <= i < t.position + k ==> t.templateData[i] != '%'
    ensures RenderChunk(s, reg, maxLen) ==
              Step(MakeState(Text, true),
                   At(s, Top(s).position + MaxTokenLength - |s.token|).(token := [], state := Text), [])
  {
    BuildTokenAfterRead(s, reg, MaxTokenLength - |s.token|, false);
    var h := Step(MakeState(Text, true), TokenProgress(s, MaxTokenLength - |s.token|).(token := []), []);
    assert Handle(s, reg, maxLen) == h;
    PoppingRound(s, reg, maxLen, h);
  }

  /** A token cut off by the end of the template is dropped and the template completes. */
  lemma UnterminatedTokenCompletes(s: Snapshot, reg: Registered, maxLen: nat)
    requires Inv(s) && RegistryOk(reg) && s.state == BuildingPlaceholder && TemplateOnTop(s)
    requires var t := Top(s);
             |s.token| + (t.templateLen - t.position) < MaxTokenLength &&
             forall i :: t.position <= i < t.templateLen ==> t.templateData[i] != '%'
    ensures var n := if |s.stack| >= 2 && WrapsTemplate(s.stack[|s.stack| - 2]) then 2 else 1;
            var rest := s.stack[..|s.stack| - n];
            var r := RenderChunk(s, reg, maxLen);
            r.output == [] && r.after == s.(stack := rest, state := ResumeState(rest), token := [])
  {
    var t := Top(s);
    var k := t.templateLen - t.position;
    BuildTokenAfterRead(s, reg, k, false);
    var s1 := TokenProgress(s, k).(token := []);
    assert s1.stack[..|s1.stack| - 1] == s.stack[..|s.stack| - 1];
    var h := Step(TemplateCompletion(s1.stack), s1, []);
    assert Handle(s, reg, maxLen) == h;
    CompletionPops(s1);
    PoppingRound(s, reg, maxLen, h);
  }

  // ---------------------------------------------------------------------------
  // RENDERING_CONTEXT

  /** The iterator answers COMPLETE: the hook closes an open handle once, the frame goes, nothing is written. */
  lemma IteratorCompleteRound(s: Snapshot, reg: Registered, maxLen: nat)
    requires Inv(s) && RegistryOk(reg) && s.state == RenderingContext && |s.stack| > 0
    requires var f := Top(s);
             f.IteratorFrame? && f.iteratorDescriptor.Some? && f.iteratorDescriptor.value.next.Callback? &&
             NextStep(f.iteratorDescriptor.value.next.result, f.cursor).Complete?
    ensures var f := Top(s);
            var d := f.iteratorDescriptor.value;
            var rest := s.stack[..|s.stack| - 1];
            var r := RenderChunk(s, reg, maxLen);
            r.output == [] && (r.outcome.finished <==> |rest| == 0) &&
            r.outcome.bytesWritten == 0 && (StopsAfter(r.outcome) <==> |rest| == 0) &&
            r.after == s.(stack := rest, state := ResumeState(rest),
                          closes := s.closes + if Opened(f, d).handleOpen && d.hasClose then 1 else 0)
  {
    var f := Top(s);
    var d := f.iteratorDescriptor.value;
    var g := Advanced(f);
    var closing := g.handleOpen && d.hasClose;
    var top := g.(handleOpen := if closing then false else g.handleOpen, handleNonNull := false);
    var s1 := WithTop(s, top).(closes := s.closes + if closing then 1 else 0);
    var h := Step(Unwind(s1.stack, 1), s1, []);
    assert Handle(s, reg, maxLen) == h by {
      assert Handle(s, reg, maxLen) == Emit(s, reg, maxLen);
      assert Emit(s, reg, maxLen) == IteratorStep(s);
    }
    var rest := s.stack[..|s.stack| - 1];
    assert PopN(s1, 1) == (true, s.(stack := rest, closes := s1.closes)) by {
      PopNNext(s1, 0);
      assert !ClosesOnPop(top);
      assert s1.stack[..|s1.stack| - 1] == rest;
    }
    PoppingRound(s, reg, maxLen, h);
  }

  /** The iterator answers ERROR: the hook closes a live handle, the state becomes ERROR, nothing is written. */
  lemma IteratorErrorRound(s: Snapshot, reg: Registered, maxLen: nat)
    requires Inv(s) && RegistryOk(reg) && s.state == RenderingContext && |s.stack| > 0
    requires var f := Top(s);
             f.IteratorFrame? && f.iteratorDescriptor.Some? && f.iteratorDescriptor.value.next.Callback? &&
             NextStep(f.iteratorDescriptor.value.next.result, f.cursor).Failed?
    ensures var f := Top(s);
            var d := f.iteratorDescriptor.value;
            var g := Opened(f, d);
            var r := RenderChunk(s, reg, maxLen);
            r.output == [] && r.outcome.errored && r.after.state == Errored &&
            r.after.stack[..|s.stack| - 1] == s.stack[..|s.stack| - 1] && |r.after.stack| == |s.stack| &&
            r.after.closes == s.closes + (if d.hasClose && (g.handleOpen || g.handleNonNull) then 1 else 0)
  {
    var f := Top(s);
    var d := f.iteratorDescriptor.value;
    var g := Advanced(f);
    var closing := d.hasClose && (g.handleOpen || g.handleNonNull);
    var s1 := WithTop(s, g.(handleOpen := false, handleNonNull := false)).(closes := s.closes + if closing then 1 else 0);
    var h := Step(MakeError(), s1, []);
    assert Handle(s, reg, maxLen) == h;
    PoppingRound(s, reg, maxLen, h);
  }

  /**
   * The iterator hands over an item with a template: the frame records one
   * more answer and the item's template, with the item's overrides, goes
   * on top; at full depth the push fails and forces ERROR instead.
   */
  lemma IteratorItemRound(s: Snapshot, reg: Registered, maxLen: nat)
    requires Inv(s) && RegistryOk(reg) && s.state == RenderingContext && |s.stack| > 0
    requires var f := Top(s);
             f.IteratorFrame? && f.iteratorDescriptor.Some? && f.iteratorDescriptor.value.next.Callback? &&
             var a := NextStep(f.iteratorDescriptor.value.next.result, f.cursor);
             a.ItemReady? && a.item.templateData.Some?
    ensures var f := Top(s);
            var item := NextStep(f.iteratorDescriptor.value.next.result, f.cursor).item;
            var r := RenderChunk(s, reg, maxLen);
            r.output == [] &&
            (|s.stack| < MaxRenderingDepth ==>
               r.after == s.(stack := WithTop(s, Advanced(f)).stack + [ItemFrame(f.name, item)], state := Text) &&
               r.outcome.bytesWritten == 0 && !StopsAfter(r.outcome)) &&
            (|s.stack| == MaxRenderingDepth ==>
               r.after == WithTop(s, Advanced(f)).(state := Errored) && r.outcome.errored)
  {
    var f := Top(s);
    var d := f.iteratorDescriptor.value;
    var item := NextStep(d.next.result, f.cursor).item;
    assert WellFormedItem(d.next.result.items[f.cursor]);
    var s1 := WithTop(s, Advanced(f));
    var h := if |s.stack| >= MaxRenderingDepth then Step(MakeError(), Pushed(s1, ItemFrame(f.name, item)), [])
             else Step(MakeState(Text, true), Pushed(s1, ItemFrame(f.name, item)), []);
    assert Handle(s, reg, maxLen) == h;
    PoppingRound(s, reg, maxLen, h);
  }

  /** A conditional frame on top is emitted as "keep rendering" and changes nothing. */
  lemma ConditionalOnTopIdles(s: Snapshot, reg: Registered, maxLen: nat)
    requires Inv(s) && RegistryOk(reg) && s.state == RenderingContext && |s.stack| > 0 && Top(s).ConditionalFrame?
    ensures RenderChunk(s, reg, maxLen) == Step(MakeState(RenderingContext, true), s, [])
  {
    var h := Step(MakeState(RenderingContext, true), s, []);
    assert Handle(s, reg, maxLen) == h;
    PoppingRound(s, reg, maxLen, h);
  }

  /** The loop over an idle conditional runs out its rounds without any change. */
  lemma {:induction false} IdleLoop(s: Snapshot, reg: Registered, remaining: nat, iterations: nat, written: seq<char>)
    requires Inv(s) && RegistryOk(reg) && s.state == RenderingContext && |s.stack| > 0 && Top(s).ConditionalFrame?
    requires iterations <= MaxIterations
    ensures ChunkLoop(s, reg, remaining, iterations, written) ==
              (s, written, if remaining == 0 then iterations else MaxIterations)
    decreases MaxIterations - iterations
  {
    if remaining > 0 && iterations < MaxIterations {
      LoopRound(s, reg, remaining, iterations, written);
      ConditionalOnTopIdles(s, reg, remaining);
      var step := Step(MakeState(RenderingContext, true), s, []);
      LoopGoesOn(s, reg, remaining, iterations, written, step);
      assert Counted(step) == s && written + step.output == written;
      IdleLoop(s, reg, remaining, iterations + 1, written);
    }
  }

  /**
   * A conditional whose delegate was a template: once the template is
   * exhausted the conditional is left on top in RENDERING_CONTEXT, and from
   * then on every `renderNextChunk` call writes nothing and changes nothing.
   */
  lemma ConditionalTemplateDelegateStalls(s: Snapshot, reg: Registered, maxLen: nat, later: nat)
    requires Inv(s) && RegistryOk(reg) && s.state == Text && TemplateOnTop(s)
    requires Top(s).position == Top(s).templateLen
    requires |s.stack| >= 3 && s.stack[|s.stack| - 3].ConditionalFrame? && WrapsTemplate(s.stack[|s.stack| - 2])
    ensures var a := RenderChunk(s, reg, maxLen).after;
            a.stack == s.stack[..|s.stack| - 2] && Top(a) == s.stack[|s.stack| - 3] &&
            a.state == RenderingContext && NextChunk(a, reg, later) == (a, [])
  {
    TemplateEndRound(s, reg, maxLen);
    var a := RenderChunk(s, reg, maxLen).after;
    assert Top(a) == s.stack[|s.stack| - 3];
    IdleLoop(a, reg, later, 0, []);
  }

  // ---------------------------------------------------------------------------
  // renderNextChunk

  /** In COMPLETE or ERROR a round and a whole call write nothing and change nothing. */
  lemma TerminalIsFixedPoint(s: Snapshot, reg: Registered, maxLen: nat)
    requires Inv(s) && RegistryOk(reg) && Terminal(s.state)
    ensures RenderChunk(s, reg, maxLen).after == s && RenderChunk(s, reg, maxLen).output == []
    ensures NextChunk(s, reg, maxLen) == (s, [])
  {
  }

  /** The loop on a lone exhausted template: one round, which completes. */
  lemma ExhaustedLoop(s: Snapshot, reg: Registered, remaining: nat, iterations: nat, written: seq<char>)
    requires Inv(s) && RegistryOk(reg) && (s.state == Text || s.state == RenderingContext) && |s.stack| == 1
    requires TemplateOnTop(s)
    requires Top(s).position == Top(s).templateLen && remaining > 0 && iterations < MaxIterations
    ensures ChunkLoop(s, reg, remaining, iterations, written) ==
              (s.(stack := [], state := Completed), written, iterations + 1)
  {
    LoopRound(s, reg, remaining, iterations, written);
    TemplateEndRound(s, reg, remaining);
    var step := RenderChunk(s, reg, remaining);
    assert step.output == [] && step.after == s.(stack := [], state := Completed) && step.outcome.finished;
    LoopStops(s, reg, remaining, iterations, written, step);
    assert Counted(step) == s.(stack := [], state := Completed) && written + step.output == written;
  }

  /** A round of the loop on a template with no `%` left copies as much as fits and the loop goes on. */
  lemma PlainRoundLoop(s: Snapshot, reg: Registered, remaining: nat, iterations: nat, written: seq<char>)
    requires Inv(s) && RegistryOk(reg) && s.state == Text && TemplateOnTop(s)
    requires PlainFrom(Top(s)) && Top(s).position < Top(s).templateLen
    requires 0 < remaining && iterations < MaxIterations
    ensures var t := Top(s);
            var k := Min(remaining, t.templateLen - t.position);
            ChunkLoop(s, reg, remaining, iterations, written) ==
              ChunkLoop(At(s, t.position + k).(processed := s.processed + k), reg, remaining - k, iterations + 1,
                        written + t.templateData[t.position..t.position + k])
  {
    var t := Top(s);
    var k := Min(remaining, t.templateLen - t.position);
    PlainRun(t, k);
    CopyRoundLoop(s, reg, remaining, iterations, written, k);
    TextStays(At(s, t.position + k).(processed := s.processed + k));
  }

  lemma PlainRun(t: Frame, k: nat)
    requires t.TemplateFrame? && PlainFrom(t) && t.position + k <= t.templateLen
    ensures NoPercentIn(t.templateData, t.position, t.position + k)
  {
  }

  lemma TextStays(x: Snapshot)
    requires x.state == Text
    ensures x.(state := Text) == x
  {
  }

  /**
   * A round of the loop over a template that copies `k` bytes free of `%`
   * and stops at the room or at the end of the template; the loop goes on
   * after them, in TEXT. A template on top in RENDERING_CONTEXT (where a
   * conditional that rendered nothing leaves the FSM) is copied the same way.
   */
  lemma CopyRoundLoop(s: Snapshot, reg: Registered, remaining: nat, iterations: nat, written: seq<char>, k: nat)
    requires Inv(s) && RegistryOk(reg) && (s.state == Text || s.state == RenderingContext) && TemplateOnTop(s)
    requires iterations < MaxIterations
    requires var t := Top(s);
             0 < k <= remaining && t.position + k <= t.templateLen && NoPercentIn(t.templateData, t.position, t.position + k) &&
             (k == remaining || t.position + k == t.templateLen)
    ensures var t := Top(s);
            ChunkLoop(s, reg, remaining, iterations, written) ==
              ChunkLoop(At(s, t.position + k).(processed := s.processed + k, state := Text), reg, remaining - k,
                        iterations + 1, written + t.templateData[t.position..t.position + k])
  {
    var t := Top(s);
    var out := t.templateData[t.position..t.position + k];
    var h := Step(MakeWritten(k, Text, k < remaining), At(s, t.position + k), out);
    var step := Step(h.outcome, At(s, t.position + k).(state := Text), out);
    assert RoundOk(s, remaining, step) &&
           ChunkLoop(s, reg, remaining, iterations, written) == LoopAfter(s, reg, remaining, iterations, written, step) by {
      ConsumeTextAfterCopy(s, remaining, k, false);
      assert Handle(s, reg, remaining) == h;
      PoppingRound(s, reg, remaining, h);
      LoopRound(s, reg, remaining, iterations, written);
    }
    StepResult(s, reg, remaining, iterations, written, ChunkLoop(s, reg, remaining, iterations, written), step,
               step.outcome, At(s, t.position + k).(processed := s.processed + k, state := Text),
               written + out, remaining - k);
  }

  /** The loop on a lone template with no `%` left, when the room ends before the template does. */
  lemma FullLoop(s: Snapshot, reg: Registered, remaining: nat, iterations: nat, written: seq<char>)
    requires Inv(s) && RegistryOk(reg) && s.state == Text && |s.stack| == 1 && TemplateOnTop(s)
    requires PlainFrom(Top(s)) && 0 < remaining <= Top(s).templateLen - Top(s).position
    requires iterations < MaxIterations
    ensures var t := Top(s);
            ChunkLoop(s, reg, remaining, iterations, written) ==
              (At(s, t.position + remaining).(processed := s.processed + remaining),
               written + t.templateData[t.position..t.position + remaining], iterations + 1)
  {
    PlainRoundLoop(s, reg, remaining, iterations, written);
  }

  /** The loop on a lone template with no `%` left, when the rest of the template fits. */
  lemma RestLoop(s: Snapshot, reg: Registered, remaining: nat, iterations: nat, written: seq<char>)
    requires Inv(s) && RegistryOk(reg) && s.state == Text && |s.stack| == 1 && TemplateOnTop(s)
    requires PlainFrom(Top(s)) && 0 < Top(s).templateLen - Top(s).position < remaining
    requires iterations + 1 < MaxIterations
    ensures var t := Top(s);
            ChunkLoop(s, reg, remaining, iterations, written) ==
              (s.(stack := [], state := Completed, processed := s.processed + (t.templateLen - t.position)),
               written + t.templateData[t.position..t.templateLen], iterations + 2)
  {
    var t := Top(s);
    var k := t.templateLen - t.position;
    PlainRoundLoop(s, reg, remaining, iterations, written);
    var s1 := At(s, t.templateLen).(processed := s.processed + k);
    ExhaustedLoop(s1, reg, remaining - k, iterations + 1, written + t.templateData[t.position..t.templateLen]);
    assert s1.(stack := [], state := Completed) ==
           s.(stack := [], state := Completed, processed := s.processed + k);
  }

  /** One `renderNextChunk` call on a lone exhausted template completes it and writes nothing. */
  lemma ExhaustedChunk(s: Snapshot, reg: Registered, maxLen: nat)
    requires Inv(s) && RegistryOk(reg) && s.state == Text && |s.stack| == 1 && TemplateOnTop(s)
    requires Top(s).templateLen == Top(s).position && maxLen > 0
    ensures NextChunk(s, reg, maxLen) == (s.(stack := [], state := Completed), [])
  {
    NextChunkIsLoop(s, reg, maxLen, ChunkLoop(s, reg, maxLen, 0, []));
    ExhaustedLoop(s, reg, maxLen, 0, []);
  }

  /** One `renderNextChunk` call on a lone template with no `%` left that fills the buffer. */
  lemma FullChunk(s: Snapshot, reg: Registered, maxLen: nat)
    requires Inv(s) && RegistryOk(reg) && s.state == Text && |s.stack| == 1 && TemplateOnTop(s)
    requires PlainFrom(Top(s)) && 0 < maxLen <= Top(s).templateLen - Top(s).position
    ensures var t := Top(s);
            NextChunk(s, reg, maxLen) ==
              (At(s, t.position + maxLen).(processed := s.processed + maxLen),
               t.templateData[t.position..t.position + maxLen])
  {
    var t := Top(s);
    NextChunkIsLoop(s, reg, maxLen, ChunkLoop(s, reg, maxLen, 0, []));
    FullLoop(s, reg, maxLen, 0, []);
    assert [] + t.templateData[t.position..t.position + maxLen] == t.templateData[t.position..t.position + maxLen];
  }

  /** One `renderNextChunk` call on a lone template with no `%` left whose rest fits: it completes. */
  lemma RestChunk(s: Snapshot, reg: Registered, maxLen: nat)
    requires Inv(s) && RegistryOk(reg) && s.state == Text && |s.stack| == 1 && TemplateOnTop(s)
    requires PlainFrom(Top(s)) && 0 < Top(s).templateLen - Top(s).position < maxLen
    ensures var t := Top(s);
            NextChunk(s, reg, maxLen) ==
              (s.(stack := [], state := Completed, processed := s.processed + (t.templateLen - t.position)),
               t.templateData[t.position..t.templateLen])
  {
    var t := Top(s);
    NextChunkIsLoop(s, reg, maxLen, ChunkLoop(s, reg, maxLen, 0, []));
    RestLoop(s, reg, maxLen, 0, []);
    assert [] + t.templateData[t.position..t.templateLen] == t.templateData[t.position..t.templateLen];
  }

  /**
   * A caller's rendering: `renderNextChunk` into `maxLen`-byte buffers until
   * COMPLETE or ERROR, for at most `fuel` calls; the final snapshot and
   * everything written, in order.
   */
  function RenderAll(s: Snapshot, reg: Registered, maxLen: nat, fuel: nat): (r: (Snapshot, seq<char>))
    requires Inv(s) && RegistryOk(reg)
    decreases fuel, 2
    ensures Inv(r.0) && r.0.processed == s.processed + |r.1|
    ensures Terminal(s.state) || fuel == 0 ==> r == (s, [])
  {
    if Terminal(s.state) then (s, []) else CallsLeft(s, reg, maxLen, fuel)
  }

  /** The rendering outside COMPLETE and ERROR: it stops when no calls are left. */
  function CallsLeft(s: Snapshot, reg: Registered, maxLen: nat, fuel: nat): (r: (Snapshot, seq<char>))
    requires Inv(s) && RegistryOk(reg)
    decreases fuel, 1
    ensures Inv(r.0) && r.0.processed == s.processed + |r.1|
    ensures fuel == 0 ==> r == (s, [])
  {
    if fuel == 0 then (s, []) else NextCall(s, reg, maxLen, fuel)
  }

  /** One `renderNextChunk` call, then the rest of the rendering. */
  function NextCall(s: Snapshot, reg: Registered, maxLen: nat, fuel: nat): (r: (Snapshot, seq<char>))
    requires Inv(s) && RegistryOk(reg) && fuel > 0
    decreases fuel, 0
    ensures Inv(r.0) && r.0.processed == s.processed + |r.1|
  {
    var c := NextChunk(s, reg, maxLen);
    var d := RenderAll(c.0, reg, maxLen, fuel - 1);
    (d.0, c.1 + d.1)
  }

  /** Outside COMPLETE and ERROR, with calls left, a rendering is one call and the rendering after it. */
  lemma RenderAllStep(s: Snapshot, reg: Registered, maxLen: nat, fuel: nat, s1: Snapshot, out: seq<char>,
                      final: Snapshot, rest: seq<char>)
    requires Inv(s) && RegistryOk(reg) && !Terminal(s.state) && fuel > 0
    requires NextChunk(s, reg, maxLen) == (s1, out) && Inv(s1)
    requires RenderAll(s1, reg, maxLen, fuel - 1) == (final, rest)
    ensures RenderAll(s, reg, maxLen, fuel) == (final, out + rest)
  {
    assert RenderAll(s, reg, maxLen, fuel) == CallsLeft(s, reg, maxLen, fuel);
    assert CallsLeft(s, reg, maxLen, fuel) == NextCall(s, reg, maxLen, fuel);
  }

  /** The chunks of a run, written one after the other. */
  function Joined(outs: seq<seq<char>>): seq<char>
  {
    if outs == [] then [] else outs[0] + Joined(outs[1..])
  }

  /**
   * `trace` is what successive `renderNextChunk` calls go through, each
   * writing the next of `outs`, up to a COMPLETE or ERROR snapshot.
   */
  predicate IsRun(trace: seq<Snapshot>, outs: seq<seq<char>>, reg: Registered, maxLen: nat)
    decreases |outs|
  {
    |trace| == |outs| + 1 && RegistryOk(reg) && Inv(trace[0]) &&
    if outs == [] then Terminal(trace[0].state)
    else
      !Terminal(trace[0].state) && NextChunk(trace[0], reg, maxLen) == (trace[1], outs[0]) &&
      IsRun(trace[1..], outs[1..], reg, maxLen)
  }

  /** A `renderNextChunk` call in front of a run makes a longer run. */
  lemma RunCons(s: Snapshot, out: seq<char>, trace: seq<Snapshot>, outs: seq<seq<char>>, reg: Registered, maxLen: nat)
    requires IsRun(trace, outs, reg, maxLen) && Inv(s) && !Terminal(s.state)
    requires NextChunk(s, reg, maxLen) == (trace[0], out)
    ensures IsRun([s] + trace, [out] + outs, reg, maxLen)
  {
    assert ([s] + trace)[1..] == trace && ([out] + outs)[1..] == outs;
  }

  /**
   * A run that takes no more calls than the caller allows is exactly what
   * the caller's rendering does: it ends at the run's last snapshot having
   * written the run's chunks in order.
   */
  lemma {:induction false} RunRenders(trace: seq<Snapshot>, outs: seq<seq<char>>, reg: Registered, maxLen: nat, fuel: nat)
    requires IsRun(trace, outs, reg, maxLen) && fuel >= |outs|
    ensures RenderAll(trace[0], reg, maxLen, fuel) == (trace[|outs|], Joined(outs))
    decreases |outs|, 0
  {
    if outs != [] {
      var t, o := trace[1..], outs[1..];
      assert t[|o|] == trace[|outs|];
      RunRendersStep(trace[0], outs[0], t, o, reg, maxLen, fuel);
    }
  }

  /** A first call, then a run. */
  lemma {:induction false} RunRendersStep(s: Snapshot, out: seq<char>, trace: seq<Snapshot>, outs: seq<seq<char>>,
                                          reg: Registered, maxLen: nat, fuel: nat)
    requires IsRun(trace, outs, reg, maxLen) && Inv(s) && !Terminal(s.state) && fuel > |outs|
    requires NextChunk(s, reg, maxLen) == (trace[0], out)
    ensures RenderAll(s, reg, maxLen, fuel) == (trace[|outs|], out + Joined(outs))
    decreases |outs|, 1
  {
    var f := fuel - 1;
    RunRenders(trace, outs, reg, maxLen, f);
    RenderAllStep(s, reg, maxLen, fuel, trace[0], out, trace[|outs|], Joined(outs));
  }

  lemma SliceSplit(d: seq<char>, i: nat, j: nat, k: nat)
    requires i <= j <= k <= |d|
    ensures d[i..j] + d[j..k] == d[i..k]
  {
  }

  /** A lone template with no `%` left renders its rest verbatim, whatever the buffer size, and completes. */
  lemma {:induction false} PlainTemplateRendersVerbatim(s: Snapshot, reg: Registered, maxLen: nat, fuel: nat)
    requires Inv(s) && RegistryOk(reg) && s.state == Text && |s.stack| == 1 && TemplateOnTop(s)
    requires PlainFrom(Top(s)) && maxLen > 0 && fuel > Top(s).templateLen - Top(s).position
    ensures var t := Top(s);
            RenderAll(s, reg, maxLen, fuel) ==
              (s.(stack := [], state := Completed, processed := s.processed + (t.templateLen - t.position)),
               t.templateData[t.position..t.templateLen])
    decreases Top(s).templateLen - Top(s).position, 1
  {
    var t := Top(s);
    if 0 < maxLen <= t.templateLen - t.position {
      VerbatimAfterFullChunk(s, reg, maxLen, fuel);
    } else {
      VerbatimInOneChunk(s, reg, maxLen, fuel);
    }
  }

  /** The rendering of a lone template with no `%` left, when the first call fills the buffer. */
  lemma {:induction false} VerbatimAfterFullChunk(s: Snapshot, reg: Registered, maxLen: nat, fuel: nat)
    requires Inv(s) && RegistryOk(reg) && s.state == Text && |s.stack| == 1 && TemplateOnTop(s)
    requires PlainFrom(Top(s)) && 0 < maxLen <= Top(s).templateLen - Top(s).position
    requires fuel > Top(s).templateLen - Top(s).position
    ensures var t := Top(s);
            RenderAll(s, reg, maxLen, fuel) ==
              (s.(stack := [], state := Completed, processed := s.processed + (t.templateLen - t.position)),
               t.templateData[t.position..t.templateLen])
    decreases Top(s).templateLen - Top(s).position, 0
  {
    var t := Top(s);
    var final := s.(stack := [], state := Completed, processed := s.processed + (t.templateLen - t.position));
    FullChunk(s, reg, maxLen);
    var s1 := At(s, t.position + maxLen).(processed := s.processed + maxLen);
    assert Top(s1) == t.(position := t.position + maxLen);
    assert PlainFrom(Top(s1));
    PlainTemplateRendersVerbatim(s1, reg, maxLen, fuel - 1);
    assert s1.(stack := [], state := Completed, processed := s1.processed + (t.templateLen - (t.position + maxLen)))
           == final;
    RenderAllStep(s, reg, maxLen, fuel, s1, t.templateData[t.position..t.position + maxLen],
                  final, t.templateData[t.position + maxLen..t.templateLen]);
    SliceSplit(t.templateData, t.position, t.position + maxLen, t.templateLen);
  }

  /** The rendering of a lone template with no `%` left, when its rest fits in one call. */
  lemma VerbatimInOneChunk(s: Snapshot, reg: Registered, maxLen: nat, fuel: nat)
    requires Inv(s) && RegistryOk(reg) && s.state == Text && |s.stack| == 1 && TemplateOnTop(s)
    requires PlainFrom(Top(s)) && Top(s).templateLen - Top(s).position < maxLen && fuel > 0
    ensures var t := Top(s);
            RenderAll(s, reg, maxLen, fuel) ==
              (s.(stack := [], state := Completed, processed := s.processed + (t.templateLen - t.position)),
               t.templateData[t.position..t.templateLen])
  {
    var t := Top(s);
    if t.position == t.templateLen {
      VerbatimOfExhausted(s, reg, maxLen, fuel);
      assert s.(stack := [], state := Completed) ==
             s.(stack := [], state := Completed, processed := s.processed + (t.templateLen - t.position));
      assert t.templateData[t.position..t.templateLen] == [];
    } else {
      VerbatimOfRest(s, reg, maxLen, fuel);
    }
  }

  lemma VerbatimOfExhausted(s: Snapshot, reg: Registered, maxLen: nat, fuel: nat)
    requires Inv(s) && RegistryOk(reg) && s.state == Text && |s.stack| == 1 && TemplateOnTop(s)
    requires Top(s).templateLen == Top(s).position && maxLen > 0 && fuel > 0
    ensures RenderAll(s, reg, maxLen, fuel) == (s.(stack := [], state := Completed), [])
  {
    ExhaustedChunk(s, reg, maxLen);
    var final := s.(stack := [], state := Completed);
    assert RenderAll(final, reg, maxLen, fuel - 1) == (final, []);
    RenderAllStep(s, reg, maxLen, fuel, final, [], final, []);
  }

  lemma VerbatimOfRest(s: Snapshot, reg: Registered, maxLen: nat, fuel: nat)
    requires Inv(s) && RegistryOk(reg) && s.state == Text && |s.stack| == 1 && TemplateOnTop(s)
    requires PlainFrom(Top(s)) && 0 < Top(s).templateLen - Top(s).position < maxLen && fuel > 0
    ensures var t := Top(s);
            RenderAll(s, reg, maxLen, fuel) ==
              (s.(stack := [], state := Completed, processed := s.processed + (t.templateLen - t.position)),
               t.templateData[t.position..t.templateLen])
  {
    var t := Top(s);
    var out := t.templateData[t.position..t.templateLen];
    RestChunk(s, reg, maxLen);
    var final := s.(stack := [], state := Completed, processed := s.processed + (t.templateLen - t.position));
    RenderAllStep(s, reg, maxLen, fuel, final, out, final, []);
    assert out + [] == out;
  }

  /**
   * A template without placeholders renders to itself and completes, in
   * any buffer size; the empty template completes with no output.
   */
  lemma TemplateWithoutPlaceholders(template: CString, isProgmem: bool, closes: nat, reg: Registered,
                                    maxLen: nat, fuel: nat)
    requires RegistryOk(reg) && '%' !in template && maxLen > 0 && fuel > |template|
    ensures RenderAll(Initialized(template, isProgmem, closes), reg, maxLen, fuel) ==
              (Snapshot(Completed, [], [], |template|, closes), template)
  {
    var s := Initialized(template, isProgmem, closes);
    assert PlainFrom(Top(s));
    PlainTemplateRendersVerbatim(s, reg, maxLen, fuel);
    assert template[0..|template|] == template;
  }

  /** A round of the loop that copies text up to a `%` and starts a token; the loop goes on. */
  lemma PercentRoundLoop(s: Snapshot, reg: Registered, remaining: nat, iterations: nat, written: seq<char>, k: nat)
    requires Inv(s) && RegistryOk(reg) && s.state == Text && TemplateOnTop(s) && iterations < MaxIterations
    requires var t := Top(s);
             k < remaining && t.position + k < t.templateLen && t.templateData[t.position + k] == '%' &&
             forall i :: t.position <= i < t.position + k ==> t.templateData[i] != '%'
    ensures var t := Top(s);
            ChunkLoop(s, reg, remaining, iterations, written) ==
              ChunkLoop(At(s, t.position + k + 1).(token := "%", state := BuildingPlaceholder, processed := s.processed + k),
                        reg, remaining - k, iterations + 1, written + t.templateData[t.position..t.position + k])
  {
    var t := Top(s);
    var after := At(s, t.position + k + 1).(token := "%", state := BuildingPlaceholder);
    var step := Step(MakeState(BuildingPlaceholder, true).(bytesWritten := k), after,
                     t.templateData[t.position..t.position + k]);
    assert RoundOk(s, remaining, step) &&
           ChunkLoop(s, reg, remaining, iterations, written) == LoopAfter(s, reg, remaining, iterations, written, step) by {
      TextRoundToPercent(s, reg, remaining, k);
      LoopRound(s, reg, remaining, iterations, written);
    }
    StepResult(s, reg, remaining, iterations, written, ChunkLoop(s, reg, remaining, iterations, written), step,
               step.outcome, after.(processed := s.processed + k),
               written + t.templateData[t.position..t.position + k], remaining - k);
  }

  /** A round of the loop that reads the rest of a token nothing answers to; the loop goes on. */
  lemma DropRoundLoop(s: Snapshot, reg: Registered, remaining: nat, iterations: nat, written: seq<char>, k: nat)
    requires Inv(s) && RegistryOk(reg) && s.state == BuildingPlaceholder && TemplateOnTop(s)
    requires 0 < remaining && iterations < MaxIterations
    requires var t := Top(s);
             0 < k && t.position + k <= t.templateLen && |s.token| + k <= MaxTokenLength &&
             t.templateData[t.position + k - 1] == '%' &&
             forall i :: t.position <= i < t.position + k - 1 ==> t.templateData[i] != '%'
    requires var t := Top(s);
             var name := s.token + t.templateData[t.position..t.position + k];
             (reg.None? || Lookup(reg.value, Some(name)).None?) && FindOverride(t.overrides, name).None?
    ensures ChunkLoop(s, reg, remaining, iterations, written) ==
              ChunkLoop(At(s, Top(s).position + k).(token := [], state := Text), reg, remaining, iterations + 1, written)
  {
    var step := Step(MakeState(Text, true), At(s, Top(s).position + k).(token := [], state := Text), []);
    assert RoundOk(s, remaining, step) &&
           ChunkLoop(s, reg, remaining, iterations, written) == LoopAfter(s, reg, remaining, iterations, written, step) by {
      UnknownTokenDropped(s, reg, remaining, k);
      LoopRound(s, reg, remaining, iterations, written);
    }
    assert Counted(step) == step.after && written + step.output == written;
    StepResult(s, reg, remaining, iterations, written, ChunkLoop(s, reg, remaining, iterations, written), step,
               step.outcome, step.after, written, remaining);
  }

  /** No `%` among `d[lo..hi]`. */
  predicate NoPercentIn(d: seq<char>, lo: nat, hi: nat)
  {
    forall i :: lo <= i < hi && i < |d| ==> d[i] != '%'
  }

  /**
   * Two rounds of the loop over text, then a `%name%` token nothing answers
   * to: the text is copied, the token is dropped and rendering goes on after it.
   */
  lemma UnknownTokenLoop(s: Snapshot, reg: Registered, remaining: nat, iterations: nat, written: seq<char>,
                         k: nat, m: nat)
    requires Inv(s) && RegistryOk(reg) && s.state == Text && s.token == [] && TemplateOnTop(s)
    requires iterations + 1 < MaxIterations
    requires var t := Top(s);
             var p := t.position;
             k < remaining && p + k + m + 2 <= t.templateLen && m + 2 <= MaxTokenLength &&
             t.templateData[p + k] == '%' && t.templateData[p + k + m + 1] == '%' &&
             NoPercentIn(t.templateData, p, p + k) && NoPercentIn(t.templateData, p + k + 1, p + k + m + 1)
    requires var t := Top(s);
             var name := t.templateData[t.position + k..t.position + k + m + 2];
             (reg.None? || Lookup(reg.value, Some(name)).None?) && FindOverride(t.overrides, name).None?
    ensures var t := Top(s);
            ChunkLoop(s, reg, remaining, iterations, written) ==
              ChunkLoop(At(s, t.position + k + m + 2).(processed := s.processed + k), reg, remaining - k,
                        iterations + 2, written + t.templateData[t.position..t.position + k])
  {
    var t := Top(s);
    var p := t.position;
    var s1 := At(s, p + k + 1).(token := "%", state := BuildingPlaceholder, processed := s.processed + k);
    var w1 := written + t.templateData[p..p + k];
    assert ChunkLoop(s, reg, remaining, iterations, written) == ChunkLoop(s1, reg, remaining - k, iterations + 1, w1) by {
      PercentRoundLoop(s, reg, remaining, iterations, written, k);
    }
    DropAfterPercent(s, reg, remaining, iterations, w1, k, m);
  }

  /** The second round of `UnknownTokenLoop`: the token after the `%` is read and dropped. */
  lemma DropAfterPercent(s: Snapshot, reg: Registered, remaining: nat, iterations: nat, w1: seq<char>, k: nat, m: nat)
    requires Inv(s) && RegistryOk(reg) && s.state == Text && s.token == [] && TemplateOnTop(s)
    requires iterations + 1 < MaxIterations
    requires var t := Top(s);
             var p := t.position;
             k < remaining && p + k + m + 2 <= t.templateLen && m + 2 <= MaxTokenLength &&
             t.templateData[p + k] == '%' && t.templateData[p + k + m + 1] == '%' &&
             NoPercentIn(t.templateData, p + k + 1, p + k + m + 1)
    requires var t := Top(s);
             var name := t.templateData[t.position + k..t.position + k + m + 2];
             (reg.None? || Lookup(reg.value, Some(name)).None?) && FindOverride(t.overrides, name).None?
    ensures var t := Top(s);
            var p := t.position;
            var s1 := At(s, p + k + 1).(token := "%", state := BuildingPlaceholder, processed := s.processed + k);
            ChunkLoop(s1, reg, remaining - k, iterations + 1, w1) ==
              ChunkLoop(At(s, p + k + m + 2).(processed := s.processed + k), reg, remaining - k, iterations + 2, w1)
  {
    var t := Top(s);
    var p := t.position;
    var s1 := At(s, p + k + 1).(token := "%", state := BuildingPlaceholder, processed := s.processed + k);
    var s2 := At(s, p + k + m + 2).(processed := s.processed + k);
    assert Top(s1) == t.(position := p + k + 1);
    assert "%" + t.templateData[p + k + 1..p + k + m + 2] == t.templateData[p + k..p + k + m + 2];
    DropRoundLoop(s1, reg, remaining - k, iterations + 1, w1, m + 1);
    assert Top(s1).position + (m + 1) == p + k + m + 2;
    TokenDroppedAt(s, p + k + 1, p + k + m + 2, s.processed + k);
    assert At(s1, p + k + m + 2).(token := [], state := Text) == s2;
  }

  /** Reading a token from `p1` to `p2` and dropping it only moves the template on. */
  lemma TokenDroppedAt(s: Snapshot, p1: nat, p2: nat, processed: nat)
    requires s.state == Text && s.token == [] && TemplateOnTop(s)
    ensures var s1 := At(s, p1).(token := "%", state := BuildingPlaceholder, processed := processed);
            At(s1, p2).(token := [], state := Text) == At(s, p2).(processed := processed)
  {
    var s1 := At(s, p1).(token := "%", state := BuildingPlaceholder, processed := processed);
    AtAt(s, p1, p2);
    assert At(s1, p2).stack == At(At(s, p1), p2).stack;
  }

  /** The template `a%name%b` (with the two `%` signs written out). */
  function OneToken(a: CString, name: CString, b: CString): (r: CString)
    ensures |r| == |a| + |name| + 2 + |b|
  {
    a + ['%'] + name + ['%'] + b
  }

  /** Where the parts of `a%name%b` lie. */
  lemma OneTokenShape(a: CString, name: CString, b: CString)
    ensures var r := OneToken(a, name, b);
            var q := |a| + |name| + 2;
            r[..|a|] == a && r[|a|] == '%' && r[|a|..q] == ['%'] + name + ['%'] && r[q - 1] == '%' &&
            r[q..] == b &&
            (forall i :: 0 <= i < |a| ==> r[i] == a[i]) &&
            (forall i :: |a| + 1 <= i < q - 1 ==> r[i] == name[i - |a| - 1]) &&
            (forall i :: q <= i < |r| ==> r[i] == b[i - q])
  {
    var r := OneToken(a, name, b);
    assert r == a + (['%'] + name + ['%']) + b;
  }

  /** The conditions under which `a%name%b` renders around an unknown placeholder in one call. */
  predicate UnknownInOneCall(a: CString, name: CString, b: CString, reg: Registered, maxLen: nat)
  {
    '%' !in a && '%' !in name && '%' !in b && |name| + 2 <= MaxTokenLength &&
    |a| + |b| < maxLen && RegistryOk(reg) &&
    (reg.None? || Lookup(reg.value, Some(['%'] + name + ['%'])).None?)
  }

  /** The loop on a lone template whose rest `b` has no `%` and fits: `b` is copied and the render completes. */
  lemma TailLoop(s: Snapshot, b: seq<char>, reg: Registered, remaining: nat, iterations: nat, written: seq<char>)
    requires Inv(s) && RegistryOk(reg) && s.state == Text && |s.stack| == 1 && TemplateOnTop(s)
    requires Top(s).templateData[Top(s).position..Top(s).templateLen] == b && PlainFrom(Top(s))
    requires |b| < remaining && iterations + 2 <= MaxIterations
    ensures var r := ChunkLoop(s, reg, remaining, iterations, written);
            r.0 == s.(stack := [], state := Completed, processed := s.processed + |b|) && r.1 == written + b
  {
    if |b| > 0 {
      RestLoop(s, reg, remaining, iterations, written);
    } else {
      ExhaustedLoop(s, reg, remaining, iterations, written);
      assert written + b == written;
    }
  }

  /** The loop on `a%name%b`: `a` is copied, the unknown token dropped, `b` copied, and the render completes. */
  lemma OneTokenLoop(s: Snapshot, a: CString, name: CString, b: CString, reg: Registered, maxLen: nat,
                     iterations: nat, written: seq<char>)
    requires UnknownInOneCall(a, name, b, reg, maxLen) && iterations + 4 <= MaxIterations
    requires Inv(s) && s.state == Text && s.token == [] && |s.stack| == 1 && TemplateOnTop(s)
    requires Top(s).position == 0 && Top(s).templateData == OneToken(a, name, b) && Top(s).overrides == []
    requires Top(s).templateLen == |a| + |name| + 2 + |b|
    ensures var r := ChunkLoop(s, reg, maxLen, iterations, written);
            r.0 == s.(stack := [], state := Completed, processed := s.processed + |a| + |b|) && r.1 == written + a + b
  {
    var text := OneToken(a, name, b);
    var q := |a| + |name| + 2;
    assert text[|a|] == '%' && text[q - 1] == '%' && text[|a|..q] == ['%'] + name + ['%'] &&
           text[0..|a|] == a && text[q..|text|] == b && NoPercentIn(text, 0, |a|) &&
           NoPercentIn(text, |a| + 1, q - 1) && NoPercentIn(text, q, |text|) by {
      OneTokenShape(a, name, b);
    }
    UnknownTokenLoop(s, reg, maxLen, iterations, written, |a|, |name|);
    var s2 := At(s, q).(processed := s.processed + |a|);
    assert Top(s2) == Top(s).(position := q);
    TailLoop(s2, b, reg, maxLen - |a|, iterations + 2, written + a);
    assert s2.(stack := [], state := Completed, processed := s2.processed + |b|) ==
           s.(stack := [], state := Completed, processed := s.processed + |a| + |b|);
  }

  /** One `renderNextChunk` call on a lone root template `a%name%b` whose placeholder nothing answers to. */
  lemma OneTokenChunk(s: Snapshot, a: CString, name: CString, b: CString, reg: Registered, maxLen: nat)
    requires UnknownInOneCall(a, name, b, reg, maxLen)
    requires Inv(s) && s.state == Text && s.token == [] && |s.stack| == 1 && TemplateOnTop(s)
    requires Top(s).position == 0 && Top(s).templateData == OneToken(a, name, b) && Top(s).overrides == []
    requires Top(s).templateLen == |a| + |name| + 2 + |b|
    ensures NextChunk(s, reg, maxLen) == (s.(stack := [], state := Completed, processed := s.processed + |a| + |b|), a + b)
  {
    var w: seq<char> := [];
    assert w + a + b == a + b;
    OneTokenLoop(s, a, name, b, reg, maxLen, 0, w);
    NextChunkIsLoop(s, reg, maxLen, ChunkLoop(s, reg, maxLen, 0, w));
  }

  /**
   * A template `a%name%b` whose placeholder nothing answers to renders, in
   * one call with room to spare, as `a` followed by `b`: the unknown
   * placeholder vanishes from the output.
   */
  lemma UnknownPlaceholderVanishes(a: CString, name: CString, b: CString, reg: Registered, maxLen: nat,
                                   closes: nat)
    requires UnknownInOneCall(a, name, b, reg, maxLen)
    ensures NextChunk(Initialized(OneToken(a, name, b), false, closes), reg, maxLen) ==
              (Snapshot(Completed, [], [], |a| + |b|, closes), a + b)
  {
    var s := Initialized(OneToken(a, name, b), false, closes);
    var done := Snapshot(Completed, [], [], |a| + |b|, closes);
    assert s.(stack := [], state := Completed, processed := s.processed + |a| + |b|) == done;
    OneTokenChunk(s, a, name, b, reg, maxLen);
    assert NextChunk(s, reg, maxLen) == (done, a + b);
  }
}
