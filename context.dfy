/**
 * The render context: the bounded rendering stack, the shared staging
 * buffer from which template bytes are read, the FSM state and the
 * placeholder-name accumulator.
 *
 * `RenderContext.View()` abstracts the object to a `Snapshot`: the state,
 * the frames on the stack, the token being accumulated and two counters.
 * The staging buffer and the buffer triples saved with the stack slots are
 * not part of the snapshot; `RenderContext.Valid()` instead keeps the
 * buffer coherent with the top template frame, so that reading through the
 * buffer is the same as reading the template text at the frame's position.
 */
module TemplateContext {
  import opened TemplateTypes
  import opened PlaceholderRegistry

  /**
   * What rendering depends on: the FSM state, the stack (bottom first),
   * the token accumulated so far, the bytes processed and the number of
   * iterator close hooks called.
   */
  datatype Snapshot = Snapshot(state: RenderState, stack: seq<Frame>, token: CString,
                               processed: nat, closes: nat)

  predicate Inv(s: Snapshot)
  {
    |s.stack| <= MaxRenderingDepth && |s.token| < PlaceholderNameSize &&
    forall i :: 0 <= i < |s.stack| ==> WellFormedFrame(s.stack[i])
  }

  function Top(s: Snapshot): Frame
    requires |s.stack| > 0
  {
    s.stack[|s.stack| - 1]
  }

  predicate TemplateOnTop(s: Snapshot)
  {
    |s.stack| > 0 && Top(s).TemplateFrame?
  }

  /** The snapshot with its top frame replaced. */
  function WithTop(s: Snapshot, f: Frame): (r: Snapshot)
    requires |s.stack| > 0
    ensures |r.stack| == |s.stack| && Top(r) == f
    ensures r.stack[..|r.stack| - 1] == s.stack[..|s.stack| - 1]
    ensures Inv(s) && WellFormedFrame(f) ==> Inv(r)
  {
    s.(stack := s.stack[|s.stack| - 1 := f])
  }

  lemma WithTopTwice(s: Snapshot, f: Frame, g: Frame)
    requires |s.stack| > 0
    ensures WithTop(WithTop(s, f), g) == WithTop(s, g)
  {
    assert WithTop(WithTop(s, f), g).stack == WithTop(s, g).stack;
  }

  lemma WithTopSame(s: Snapshot)
    requires |s.stack| > 0
    ensures WithTop(s, Top(s)) == s
  {
    assert WithTop(s, Top(s)).stack == s.stack;
  }

  /** The snapshot with the top template moved to position `p`. */
  function At(s: Snapshot, p: nat): (r: Snapshot)
    requires TemplateOnTop(s)
    ensures TemplateOnTop(r) && Top(r) == Top(s).(position := p)
    ensures Inv(s) && p <= Top(s).templateLen ==> Inv(r)
  {
    WithTop(s, Top(s).(position := p))
  }

  lemma AtAt(s: Snapshot, p: nat, q: nat)
    requires TemplateOnTop(s)
    ensures At(At(s, p), q) == At(s, q)
  {
    WithTopTwice(s, Top(s).(position := p), Top(s).(position := q));
  }

  /** `pushContext`: overflow forces ERROR and leaves the stack alone; otherwise `f` goes on top. */
  function Pushed(s: Snapshot, f: Frame): (r: Snapshot)
    ensures |s.stack| >= MaxRenderingDepth ==> r == s.(state := Errored)
    ensures |s.stack| < MaxRenderingDepth ==>
              r.state == s.state && |r.stack| == |s.stack| + 1 && r.stack[..|s.stack|] == s.stack &&
              Top(r) == f && r.token == s.token && r.closes == s.closes && r.processed == s.processed
    ensures Inv(s) && WellFormedFrame(f) ==> Inv(r)
  {
    if |s.stack| >= MaxRenderingDepth then s.(state := Errored)
    else s.(stack := s.stack + [f])
  }

  lemma PushedWithTop(s: Snapshot, f: Frame, g: Frame)
    requires |s.stack| < MaxRenderingDepth
    ensures WithTop(Pushed(s, f), g) == Pushed(s, g)
  {
    assert WithTop(Pushed(s, f), g).stack == Pushed(s, g).stack;
  }

  /** Popping this frame calls the iterator's close hook. */
  predicate ClosesOnPop(f: Frame)
  {
    f.IteratorFrame? && f.iteratorDescriptor.Some? && f.iteratorDescriptor.value.hasClose && f.handleOpen
  }

  /** `popContext`: underflow forces ERROR; otherwise the top frame goes, closing an open iterator. */
  function Popped(s: Snapshot): (r: Snapshot)
    ensures |s.stack| == 0 ==> r == s.(state := Errored)
    ensures |s.stack| > 0 ==>
              r.state == s.state && r.stack == s.stack[..|s.stack| - 1] && r.token == s.token &&
              r.processed == s.processed &&
              r.closes == s.closes + (if ClosesOnPop(Top(s)) then 1 else 0)
    ensures Inv(s) ==> Inv(r)
  {
    if |s.stack| == 0 then s.(state := Errored)
    else s.(stack := s.stack[..|s.stack| - 1],
            closes := s.closes + (if ClosesOnPop(Top(s)) then 1 else 0))
  }

  /** `hasMoreData`: the top frame is a template with bytes left. */
  predicate MoreData(s: Snapshot)
  {
    TemplateOnTop(s) && Top(s).position < Top(s).templateLen
  }

  /**
   * `getNextChar`: the template byte at the top frame's position, which
   * then advances by one; the end marker `'\0'` with nothing changed when
   * there is no template on top or it is exhausted.
   */
  function ReadChar(s: Snapshot): (r: (char, Snapshot))
    requires Inv(s)
    ensures MoreData(s) ==> r.0 != '\0' && r.0 == Top(s).templateData[Top(s).position] &&
                            r.1 == WithTop(s, Top(s).(position := Top(s).position + 1))
    ensures !MoreData(s) ==> r == ('\0', s)
    ensures Inv(r.1)
  {
    if MoreData(s) then
      var t := Top(s);
      (t.templateData[t.position], WithTop(s, t.(position := t.position + 1)))
    else ('\0', s)
  }

  /**
   * The buffer triple `c` agrees with template frame `f` and the staging
   * buffer: the frame's position is the fill offset plus the cursor, the
   * fill stays within the template, and the filled part of the buffer is
   * the template text from the fill offset on.
   */
  predicate Coherent(f: Frame, c: BufferCache, buf: array<char>)
    requires f.TemplateFrame?
    reads buf
  {
    c.pos <= c.len <= buf.Length && c.offset + c.pos == f.position &&
    c.offset + c.len <= f.templateLen <= |f.templateData| &&
    forall i :: 0 <= i < c.len ==> buf[i] == f.templateData[c.offset + i]
  }

  class RenderContext {
    var state: RenderState
    const renderingStack: array<Frame>
    /** The buffer triple saved with each stack slot while it holds a template. */
    const savedBuffers: array<BufferCache>
    var renderingDepth: nat
    const placeholderName: array<char>
    var placeholderPos: nat
    const readBuffer: array<char>
    var bufferPos: nat
    var bufferLen: nat
    var bufferOffset: nat
    var registry: Registry?
    var totalBytesProcessed: nat
    /** Number of iterator close hooks called through this context. */
    ghost var closeCalls: nat

    /** The invariant: the structure is in range and the top template's buffer is coherent. */
    ghost predicate Valid()
      reads this, renderingStack, savedBuffers, placeholderName, readBuffer
    {
      Structural() &&
      (TopIsTemplate() ==>
         savedBuffers[renderingDepth - 1] == Shared() &&
         Coherent(renderingStack[renderingDepth - 1], Shared(), readBuffer))
    }

    /** Array sizes, depth and cursor bounds, a NUL-free token and well-formed frames. */
    ghost predicate Structural()
      reads this, renderingStack, savedBuffers, placeholderName, readBuffer
    {
      renderingStack.Length == MaxRenderingDepth && savedBuffers.Length == MaxRenderingDepth &&
      placeholderName.Length == PlaceholderNameSize && readBuffer.Length == BufferSize &&
      placeholderName != readBuffer &&
      renderingDepth <= MaxRenderingDepth && placeholderPos < PlaceholderNameSize &&
      (forall i :: 0 <= i < placeholderPos ==> placeholderName[i] != '\0') &&
      (forall i :: 0 <= i < renderingDepth ==> WellFormedFrame(renderingStack[i])) &&
      bufferPos <= bufferLen <= BufferSize
    }

    ghost predicate TopIsTemplate()
      reads this, renderingStack
    {
      0 < renderingDepth <= renderingStack.Length && renderingStack[renderingDepth - 1].TemplateFrame?
    }

    /** The shared buffer triple. */
    ghost function Shared(): BufferCache
      reads this
    {
      BufferCache(bufferPos, bufferLen, bufferOffset)
    }

    ghost function View(): (s: Snapshot)
      reads this, renderingStack, savedBuffers, placeholderName, readBuffer
      requires Structural()
      ensures Inv(s)
    {
      Snapshot(state, renderingStack[..renderingDepth], placeholderName[..placeholderPos],
               totalBytesProcessed, closeCalls)
    }

    constructor ()
      ensures Valid() && fresh(renderingStack) && fresh(savedBuffers) && fresh(placeholderName) && fresh(readBuffer)
      ensures View() == Snapshot(Text, [], [], 0, 0) && registry == null
      ensures Shared() == EmptyCache
    {
      state := Text;
      renderingStack := new Frame[MaxRenderingDepth](_ => EmptyFrame);
      savedBuffers := new BufferCache[MaxRenderingDepth](_ => EmptyCache);
      renderingDepth := 0;
      placeholderName := new char[PlaceholderNameSize](_ => '\0');
      placeholderPos := 0;
      readBuffer := new char[BufferSize](_ => '\0');
      bufferPos, bufferLen, bufferOffset := 0, 0, 0;
      registry := null;
      totalBytesProcessed := 0;
      closeCalls := 0;
    }

    /** Back to TEXT with an empty stack, an empty token and zeroed buffer and statistics. */
    method Reset()
      requires Valid()
      modifies this, renderingStack, savedBuffers, placeholderName
      ensures Valid() && registry == old(registry)
      ensures View() == Snapshot(Text, [], [], 0, old(closeCalls))
      ensures Shared() == EmptyCache
      ensures forall i :: 0 <= i < renderingStack.Length ==> renderingStack[i] == EmptyFrame
      ensures forall i :: 0 <= i < savedBuffers.Length ==> savedBuffers[i] == EmptyCache
      ensures forall i :: 0 <= i < placeholderName.Length ==> placeholderName[i] == '\0'
    {
      state := Text;
      renderingDepth := 0;
      placeholderPos := 0;
      bufferPos, bufferLen, bufferOffset := 0, 0, 0;
      totalBytesProcessed := 0;
      forall i | 0 <= i < placeholderName.Length {
        placeholderName[i] := '\0';
      }
      forall i | 0 <= i < renderingStack.Length {
        renderingStack[i] := EmptyFrame;
      }
      forall i | 0 <= i < savedBuffers.Length {
        savedBuffers[i] := EmptyCache;
      }
    }

    /**
     * `pushContext`, together with the fields the caller fills in right
     * after it: `f` is the finished frame (a template starts at position 0).
     */
    method PushContext(f: Frame) returns (ok: bool)
      requires Valid() && WellFormedFrame(f) && (f.TemplateFrame? ==> f.position == 0)
      modifies this, renderingStack, savedBuffers
      ensures Valid() && registry == old(registry)
      ensures ok == (old(renderingDepth) < MaxRenderingDepth)
      ensures View() == Pushed(old(View()), f)
      ensures !ok ==> renderingDepth == old(renderingDepth) && Shared() == old(Shared())
      ensures ok && 0 < old(renderingDepth) && old(TopIsTemplate()) ==>
                savedBuffers[old(renderingDepth) - 1] == old(Shared())
      ensures ok && f.TemplateFrame? ==> Shared() == EmptyCache && savedBuffers[renderingDepth - 1] == EmptyCache
      ensures ok && !f.TemplateFrame? ==> Shared() == old(Shared())
    {
      if renderingDepth >= MaxRenderingDepth {
        state := Errored;
        return false;
      }
      SaveBufferState();
      PlaceFrame(f);
      return true;
    }

    /** Saves the shared buffer triple into the top slot when it holds a template. */
    method SaveBufferState()
      requires Valid()
      modifies savedBuffers
      ensures Valid() && View() == old(View())
      ensures TopIsTemplate() ==> savedBuffers[renderingDepth - 1] == Shared()
    {
      if renderingDepth > 0 && renderingStack[renderingDepth - 1].TemplateFrame? {
        savedBuffers[renderingDepth - 1] := BufferCache(bufferPos, bufferLen, bufferOffset);
      }
    }

    /** Writes `f` into the next free slot; a template starts with an empty buffer. */
    method PlaceFrame(f: Frame)
      requires Valid() && renderingDepth < MaxRenderingDepth
      requires WellFormedFrame(f) && (f.TemplateFrame? ==> f.position == 0)
      modifies this, renderingStack, savedBuffers
      ensures Valid() && registry == old(registry)
      ensures View() == Pushed(old(View()), f)
      ensures 0 < old(renderingDepth) ==> savedBuffers[old(renderingDepth) - 1] == old(savedBuffers[renderingDepth - 1])
      ensures f.TemplateFrame? ==> Shared() == EmptyCache && savedBuffers[renderingDepth - 1] == EmptyCache
      ensures !f.TemplateFrame? ==> Shared() == old(Shared())
    {
      ghost var before := renderingStack[..renderingDepth];
      renderingStack[renderingDepth] := f;
      if f.TemplateFrame? {
        savedBuffers[renderingDepth] := EmptyCache;
        bufferPos, bufferLen, bufferOffset := 0, 0, 0;
      }
      renderingDepth := renderingDepth + 1;
      assert renderingStack[..renderingDepth] == before + [f];
    }

    /**
     * `popContext`: drops the top frame (calling an open iterator's close
     * hook) and points the shared buffer at the new top template's
     * position, empty, so the next read refills from there.
     */
    method PopContext()
      requires Valid()
      modifies this, renderingStack, savedBuffers
      ensures Valid() && registry == old(registry)
      ensures View() == Popped(old(View()))
      ensures old(renderingDepth) == 0 ==> renderingDepth == 0 && Shared() == old(Shared())
      ensures 0 < old(renderingDepth) ==>
                Shared() == (if TopIsTemplate() then BufferCache(0, 0, renderingStack[renderingDepth - 1].position)
                             else EmptyCache)
    {
      if renderingDepth == 0 {
        state := Errored;
        return;
      }
      DropTop();
      ResumeParent();
    }

    /** The first half of a pop: the top slot is cleared and the depth goes down by one. */
    method DropTop()
      requires Valid() && 0 < renderingDepth
      modifies this, renderingStack, savedBuffers
      ensures Structural() && registry == old(registry) && Shared() == old(Shared())
      ensures View() == Popped(old(View()))
    {
      ghost var before := renderingStack[..renderingDepth];
      renderingDepth := renderingDepth - 1;
      var popped := renderingStack[renderingDepth];
      if ClosesOnPop(popped) {
        closeCalls := closeCalls + 1;
      }
      renderingStack[renderingDepth] := EmptyFrame;
      savedBuffers[renderingDepth] := EmptyCache;
      assert renderingStack[..renderingDepth] == before[..renderingDepth];
    }

    /** The second half of a pop: the shared buffer is emptied at the new top template's position. */
    method ResumeParent()
      requires Structural()
      modifies this, savedBuffers
      ensures Valid() && registry == old(registry) && View() == old(View())
      ensures Shared() == (if TopIsTemplate() then BufferCache(0, 0, renderingStack[renderingDepth - 1].position)
                           else EmptyCache)
    {
      if renderingDepth > 0 && renderingStack[renderingDepth - 1].TemplateFrame? {
        var position := renderingStack[renderingDepth - 1].position;
        bufferPos, bufferLen, bufferOffset := 0, 0, position;
        savedBuffers[renderingDepth - 1] := BufferCache(0, 0, position);
      } else {
        bufferPos, bufferLen, bufferOffset := 0, 0, 0;
      }
    }

    /** `getCurrentContext`: the top frame, or none on an empty stack. */
    function CurrentContext(): (r: Option<Frame>)
      reads this, renderingStack, savedBuffers, placeholderName, readBuffer
      requires Valid()
      ensures r.Some? <==> |View().stack| > 0
      ensures r.Some? ==> r.value == Top(View())
    {
      if renderingDepth == 0 then None else Some(renderingStack[renderingDepth - 1])
    }

    /** `getContext`: the frame at `depth` counted from the bottom, or none out of range. */
    function GetContext(depth: int): (r: Option<Frame>)
      reads this, renderingStack, savedBuffers, placeholderName, readBuffer
      requires Valid()
      ensures r.Some? <==> 0 <= depth < |View().stack|
      ensures r.Some? ==> r.value == View().stack[depth]
    {
      if depth < 0 || depth >= renderingDepth then None else Some(renderingStack[depth])
    }

    /** `isComplete`: true on COMPLETE and also on ERROR. */
    function IsComplete(): (r: bool)
      reads this
      ensures r <==> state == Completed || state == Errored
    {
      state == Completed || state == Errored
    }

    function HasError(): (r: bool)
      reads this
      ensures r <==> state == Errored
    {
      state == Errored
    }

    /** `isRenderingTemplate`: a template frame is on top. */
    function IsRenderingTemplate(): (r: bool)
      reads this, renderingStack, savedBuffers, placeholderName, readBuffer
      requires Valid()
      ensures r <==> TemplateOnTop(View())
      ensures r ==> CurrentContext().Some? && KindOf(CurrentContext().value) == TemplateContext
    {
      renderingDepth > 0 && renderingStack[renderingDepth - 1].TemplateFrame?
    }

    /**
     * `isRenderingPlaceholder`: a static-data or static-template frame is on
     * top; the computed, conditional and iterator kinds do not count.
     */
    function IsRenderingPlaceholder(): (r: bool)
      reads this, renderingStack, savedBuffers, placeholderName, readBuffer
      requires Valid()
      ensures r <==> |View().stack| > 0 &&
                     (Top(View()).DataFrame? || Top(View()).TemplatePlaceholderFrame?)
      ensures r ==> !IsRenderingTemplate()
    {
      renderingDepth > 0 &&
      (renderingStack[renderingDepth - 1].DataFrame? ||
       renderingStack[renderingDepth - 1].TemplatePlaceholderFrame?)
    }

    /** `getCurrentContextType`: the kind of the top frame, TEMPLATE on an empty stack. */
    function GetCurrentContextType(): (r: ContextType)
      reads this, renderingStack, savedBuffers, placeholderName, readBuffer
      requires Valid()
      ensures |View().stack| == 0 ==> r == TemplateContext
      ensures |View().stack| > 0 ==> r == KindOf(Top(View()))
      ensures r == TemplateContext && |View().stack| > 0 <==> IsRenderingTemplate()
    {
      if renderingDepth == 0 then TemplateContext else KindOf(renderingStack[renderingDepth - 1])
    }

    /** `getAvailableBytes`: the staged template bytes not yet read. */
    function GetAvailableBytes(): (r: nat)
      reads this, renderingStack, savedBuffers, placeholderName, readBuffer
      requires Valid()
      ensures bufferPos + r == bufferLen && r <= BufferSize
    {
      bufferLen - bufferPos
    }

    /** `hasMoreData`, whose buffer-cursor disjunct adds nothing once the buffer is coherent. */
    function HasMoreData(): (r: bool)
      reads this, renderingStack, savedBuffers, placeholderName, readBuffer
      requires Valid()
      ensures r == MoreData(View())
    {
      if renderingDepth == 0 || !renderingStack[renderingDepth - 1].TemplateFrame? then false
      else
        var t := renderingStack[renderingDepth - 1];
        t.position < t.templateLen || bufferPos < bufferLen
    }

    /**
     * `refillBuffer`: loads up to `BufferSize` template bytes starting at
     * the top frame's position and records the fill in the frame's slot.
     */
    method RefillBuffer() returns (ok: bool)
      requires Valid()
      modifies this, savedBuffers, readBuffer
      ensures Valid() && registry == old(registry) && View() == old(View())
      ensures ok == MoreData(old(View()))
      ensures ok ==> bufferPos == 0 && bufferOffset == Top(View()).position &&
                     bufferLen == Min(BufferSize, Top(View()).templateLen - Top(View()).position) &&
                     readBuffer[..bufferLen] == Top(View()).templateData[bufferOffset..bufferOffset + bufferLen]
      ensures !ok ==> Shared() == old(Shared()) && readBuffer[..] == old(readBuffer[..])
    {
      if renderingDepth == 0 || !renderingStack[renderingDepth - 1].TemplateFrame? {
        return false;
      }
      var t := renderingStack[renderingDepth - 1];
      if t.position >= t.templateLen {
        return false;
      }
      var n := Min(BufferSize, t.templateLen - t.position);
      forall i | 0 <= i < n {
        readBuffer[i] := t.templateData[t.position + i];
      }
      bufferPos, bufferLen, bufferOffset := 0, n, t.position;
      savedBuffers[renderingDepth - 1] := BufferCache(0, n, t.position);
      return true;
    }

    /** `getNextChar`: reads through the shared buffer, refilling it when it runs dry. */
    method GetNextChar() returns (c: char)
      requires Valid()
      modifies this, savedBuffers, readBuffer, renderingStack
      ensures Valid() && registry == old(registry)
      ensures (c, View()) == ReadChar(old(View()))
    {
      if renderingDepth == 0 || !renderingStack[renderingDepth - 1].TemplateFrame? {
        return '\0';
      }
      RestoreBufferState();
      if bufferPos >= bufferLen {
        var ok := RefillBuffer();
        if !ok {
          return '\0';
        }
      }
      c := ReadBuffered();
    }

    /** Takes the buffer triple saved in the top template's slot when the shared one is empty. */
    method RestoreBufferState()
      requires Valid() && TopIsTemplate()
      modifies this
      ensures Valid() && registry == old(registry) && View() == old(View())
    {
      var saved := savedBuffers[renderingDepth - 1];
      if bufferPos == 0 && bufferLen == 0 && saved.len > 0 {
        // The slot of the top template always holds the shared triple, so an
        // empty shared buffer never has a non-empty saved fill to take over.
        assert false;
      }
    }

    /** Hands out the next buffered byte and moves the top template's position past it. */
    method ReadBuffered() returns (c: char)
      requires Valid() && TopIsTemplate() && bufferPos < bufferLen
      modifies this, savedBuffers, renderingStack
      ensures Valid() && registry == old(registry)
      ensures (c, View()) == ReadChar(old(View()))
    {
      var t := renderingStack[renderingDepth - 1];
      ghost var before := renderingStack[..renderingDepth];
      c := readBuffer[bufferPos];
      bufferPos := bufferPos + 1;
      var t' := t.(position := bufferOffset + bufferPos);
      renderingStack[renderingDepth - 1] := t';
      savedBuffers[renderingDepth - 1] := BufferCache(bufferPos, bufferLen, bufferOffset);
      assert renderingStack[..renderingDepth] == before[renderingDepth - 1 := t'];
    }

    /** `resetPlaceholder`: empties the token accumulator. */
    method ResetPlaceholder()
      requires Valid()
      modifies this, placeholderName
      ensures Valid() && registry == old(registry)
      ensures View() == old(View()).(token := [])
      ensures Shared() == old(Shared())
      ensures forall i :: 0 <= i < placeholderName.Length ==> placeholderName[i] == '\0'
    {
      placeholderPos := 0;
      forall i | 0 <= i < placeholderName.Length {
        placeholderName[i] := '\0';
      }
    }

    /** Writes back a non-template top frame that the renderer updated through `getCurrentContext`. */
    method UpdateCurrentContext(f: Frame)
      requires Valid() && |View().stack| > 0 && !Top(View()).TemplateFrame?
      requires !f.TemplateFrame? && WellFormedFrame(f)
      modifies renderingStack
      ensures Valid() && View() == WithTop(old(View()), f)
    {
      renderingStack[renderingDepth - 1] := f;
    }

    /** The renderer's assignments to `state`. */
    method SetState(next: RenderState)
      requires Valid()
      modifies this
      ensures Valid() && registry == old(registry) && View() == old(View()).(state := next)
    {
      state := next;
    }

    /** Starts a token: the accumulator holds the opening `%` alone. */
    method StartToken()
      requires Valid()
      modifies this, placeholderName
      ensures Valid() && registry == old(registry) && View() == old(View()).(token := "%")
    {
      placeholderPos := 0;
      placeholderName[placeholderPos] := '%';
      placeholderPos := placeholderPos + 1;
      assert placeholderName[..placeholderPos] == "%";
    }

    /** Appends a byte to the token; the accumulator keeps its last slot for the terminator. */
    method AppendToken(c: char)
      requires Valid() && placeholderPos < PlaceholderNameSize - 1 && c != '\0'
      modifies this, placeholderName
      ensures Valid() && registry == old(registry) && View() == old(View()).(token := old(View()).token + [c])
    {
      ghost var before := placeholderName[..placeholderPos];
      placeholderName[placeholderPos] := c;
      placeholderPos := placeholderPos + 1;
      assert placeholderName[..placeholderPos] == before + [c];
    }

    /** Adds the bytes of one rendering step to the running total. */
    method AddProcessed(n: nat)
      requires Valid()
      modifies this
      ensures Valid() && registry == old(registry) && View() == old(View()).(processed := old(View()).processed + n)
    {
      totalBytesProcessed := totalBytesProcessed + n;
    }

    /** Records one call of an iterator's close hook. */
    ghost method NoteClose()
      requires Valid()
      modifies this
      ensures Valid() && registry == old(registry) && View() == old(View()).(closes := old(View()).closes + 1)
    {
      closeCalls := closeCalls + 1;
    }

    /** `setRegistry`: attaches the registry placeholders are resolved against. */
    method SetRegistry(r: Registry?)
      requires Valid()
      modifies this
      ensures Valid() && registry == r && View() == old(View())
    {
      registry := r;
    }
  }
}
