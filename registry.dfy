/**
 * The placeholder registry: a fixed-capacity, append-only table of named
 * entries. Lookup scans from the newest entry down, so a later
 * registration of a name shadows an earlier one. The registry also owns
 * the clamped copy primitives that stream an entry's bytes into a
 * caller's buffer.
 */
module PlaceholderRegistry {
  import opened TemplateTypes

  function Min(a: nat, b: nat): nat { if a <= b then a else b }

  /** The name check every registration runs: non-null and shorter than the name buffer. */
  function ValidatePlaceholderName(name: Option<CString>): (ok: bool)
    ensures ok <==> name.Some? && |name.value| < MaxPlaceholderNameSize
  {
    name.Some? && |name.value| < MaxPlaceholderNameSize && |name.value| < PlaceholderNameSize
  }

  /**
   * Index of the newest entry named `name` in `entries`, if any: the
   * highest index with that exact name.
   */
  function FindIndex(entries: seq<PlaceholderEntry>, name: CString): (r: Option<nat>)
    ensures r.Some? ==> r.value < |entries| && entries[r.value].name == name
    ensures r.Some? ==> forall j :: r.value < j < |entries| ==> entries[j].name != name
    ensures r.None? <==> forall j :: 0 <= j < |entries| ==> entries[j].name != name
    decreases |entries|
  {
    if |entries| == 0 then None
    else if entries[|entries| - 1].name == name then Some(|entries| - 1)
    else FindIndex(entries[..|entries| - 1], name)
  }

  /** The entry `getPlaceholder` returns for `name` (none for a null name). */
  function Lookup(entries: seq<PlaceholderEntry>, name: Option<CString>): Option<PlaceholderEntry>
  {
    if name.None? then None
    else match FindIndex(entries, name.value)
      case None => None
      case Some(i) => Some(entries[i])
  }

  /** Bytes a data entry stands for; a null pointer or a null getter result reads as empty. */
  function Payload(source: PlaceholderSource): CString
  {
    match source
    case ProgmemData(d) => if d.Some? then d.value else ""
    case ProgmemTemplate(t) => if t.Some? then t.value else ""
    case RamData(g) => if g.Callback? && g.result.Some? then g.result.value else ""
    case _ => ""
  }

  /** `min(maxLen, dataLen - offset, cap)`, or 0 when nothing is left or nothing fits. */
  function ChunkLength(dataLen: nat, offset: nat, maxLen: nat, cap: nat): (n: nat)
    ensures n <= maxLen && n <= cap
    ensures n == 0 <==> offset >= dataLen || maxLen == 0 || cap == 0
    ensures 0 < n ==> offset + n <= dataLen
    ensures offset < dataLen ==> n == maxLen || n == cap || offset + n == dataLen
  {
    if maxLen == 0 || offset >= dataLen then 0 else Min(Min(maxLen, dataLen - offset), cap)
  }

  /** The chunk of `data` starting at `offset` that one copy call delivers. */
  function Chunk(data: CString, offset: nat, maxLen: nat, cap: nat): (r: CString)
    ensures |r| == ChunkLength(|data|, offset, maxLen, cap)
    ensures 0 < |r| ==> r == data[offset..offset + |r|]
  {
    var n := ChunkLength(|data|, offset, maxLen, cap);
    if n == 0 then [] else data[offset..offset + n]
  }

  /** Largest copy one call makes from an entry: `RamChunkSize` for live data, `ProgmemChunkSize` otherwise. */
  function ChunkCap(source: PlaceholderSource): nat
  {
    if source.RamData? then RamChunkSize else ProgmemChunkSize
  }

  /**
   * What `renderPlaceholder` writes for `entry` at `offset`: a chunk of
   * the entry's bytes for the two static kinds and for live data, nothing
   * for the kinds the renderer expands itself.
   */
  function RenderedChunk(entry: Option<PlaceholderEntry>, offset: nat, maxLen: nat): (r: CString)
    ensures |r| <= maxLen
    ensures entry.None? || maxLen == 0 ==> r == []
    ensures (entry.Some? && (entry.value.source.DynamicTemplate? || entry.value.source.Conditional?
                             || entry.value.source.Iterator?)) ==> r == []
    ensures entry.Some? && entry.value.source.RamData? ==> |r| <= RamChunkSize
    ensures |r| <= ProgmemChunkSize
    ensures entry.Some? && 0 < |r| ==> offset + |r| <= |Payload(entry.value.source)|
                                       && r == Payload(entry.value.source)[offset..offset + |r|]
    ensures entry.Some? ==> |r| == ChunkLength(|Payload(entry.value.source)|, offset, maxLen, ChunkCap(entry.value.source))
  {
    if entry.None? || maxLen == 0 then []
    else match entry.value.source
      case ProgmemData(d) => if d.None? then [] else Chunk(d.value, offset, maxLen, ProgmemChunkSize)
      case ProgmemTemplate(t) => if t.None? then [] else Chunk(t.value, offset, maxLen, ProgmemChunkSize)
      case RamData(g) =>
        if g.NullCallback? || g.result.None? then [] else Chunk(g.result.value, offset, maxLen, RamChunkSize)
      case _ => []
  }

  /** Length of static data: `strlen` of the bytes, 0 for a null pointer; the entry's `getLength`. */
  function GetProgmemLength(data: Option<CString>): (n: nat)
    ensures data.None? ==> n == 0
    ensures n == |Payload(ProgmemData(data))| == |Payload(ProgmemTemplate(data))|
  {
    if data.None? then 0 else |data.value|
  }

  /** Length of live data: `strlen` of what the getter returns, 0 for a null getter or result. */
  function GetRamLength(getter: Callback<Option<CString>>): (n: nat)
    ensures getter.NullCallback? || getter.result.None? ==> n == 0
    ensures n == |Payload(RamData(getter))|
  {
    if getter.NullCallback? || getter.result.None? then 0 else |getter.result.value|
  }

  /**
   * Template length of a dynamic template: 0 for a null descriptor or
   * text, the length callback's answer when there is one, `strlen`
   * otherwise.
   */
  function GetDynamicTemplateLength(descriptor: Option<DynamicTemplateDescriptor>,
                                    templateData: Option<CString>): (n: nat)
    ensures descriptor.None? || templateData.None? ==> n == 0
    ensures descriptor.Some? && templateData == Some(DynamicText(descriptor.value)) ==>
              n == DynamicLength(descriptor.value)
  {
    if descriptor.None? || templateData.None? then 0
    else if descriptor.value.getLength.Callback? then descriptor.value.getLength.result
    else |templateData.value|
  }

  /** Copies `data[offset..offset + n]` into `dest[at..at + n]` and touches nothing else. */
  method CopyChunk(data: CString, offset: nat, n: nat, dest: array<char>, at: nat)
    requires offset + n <= |data| && at + n <= dest.Length
    modifies dest
    ensures dest[at..at + n] == data[offset..offset + n]
    ensures forall i :: 0 <= i < dest.Length && !(at <= i < at + n) ==> dest[i] == old(dest[i])
  {
    forall i | at <= i < at + n {
      dest[i] := data[offset + i - at];
    }
  }

  /** `copyProgmemData`: a copy from static data capped at the bulk chunk size. */
  method CopyProgmemData(source: Option<CString>, offset: nat, dest: array<char>, at: nat, maxLen: nat)
    returns (n: nat)
    requires at + maxLen <= dest.Length
    modifies dest
    ensures n <= maxLen
    ensures source.None? ==> n == 0
    ensures source.Some? ==> n == |Chunk(source.value, offset, maxLen, ProgmemChunkSize)|
    ensures source.Some? ==> dest[at..at + n] == Chunk(source.value, offset, maxLen, ProgmemChunkSize)
    ensures forall i :: 0 <= i < dest.Length && !(at <= i < at + n) ==> dest[i] == old(dest[i])
  {
    if source.None? || maxLen == 0 {
      return 0;
    }
    var dataLen := |source.value|;
    if offset >= dataLen {
      return 0;
    }
    var remaining := dataLen - offset;
    n := Min(Min(maxLen, remaining), ProgmemChunkSize);
    CopyChunk(source.value, offset, n, dest, at);
  }

  /** `copyRamData`: a copy from a live-data getter capped at the RAM chunk size. */
  method CopyRamData(getter: Callback<Option<CString>>, offset: nat, dest: array<char>, at: nat, maxLen: nat)
    returns (n: nat)
    requires at + maxLen <= dest.Length
    modifies dest
    ensures n <= maxLen
    ensures getter.NullCallback? || getter.result.None? ==> n == 0
    ensures getter.Callback? && getter.result.Some? ==>
              n == |Chunk(getter.result.value, offset, maxLen, RamChunkSize)| &&
              dest[at..at + n] == Chunk(getter.result.value, offset, maxLen, RamChunkSize)
    ensures forall i :: 0 <= i < dest.Length && !(at <= i < at + n) ==> dest[i] == old(dest[i])
  {
    if getter.NullCallback? || maxLen == 0 {
      return 0;
    }
    if getter.result.None? {
      return 0;
    }
    var data := getter.result.value;
    var dataLen := |data|;
    if offset >= dataLen {
      return 0;
    }
    var remaining := dataLen - offset;
    n := Min(Min(maxLen, remaining), RamChunkSize);
    CopyChunk(data, offset, n, dest, at);
  }

  /** `renderPlaceholder`: dispatches on the entry's kind; writes exactly `RenderedChunk`. */
  method RenderPlaceholder(entry: Option<PlaceholderEntry>, offset: nat, dest: array<char>, at: nat, maxLen: nat)
    returns (n: nat)
    requires at + maxLen <= dest.Length
    modifies dest
    ensures n == |RenderedChunk(entry, offset, maxLen)|
    ensures dest[at..at + n] == RenderedChunk(entry, offset, maxLen)
    ensures forall i :: 0 <= i < dest.Length && !(at <= i < at + n) ==> dest[i] == old(dest[i])
  {
    if entry.None? || maxLen == 0 {
      return 0;
    }
    match entry.value.source {
      case ProgmemData(d) =>
        n := CopyProgmemData(d, offset, dest, at, maxLen);
      case ProgmemTemplate(t) =>
        n := CopyProgmemData(t, offset, dest, at, maxLen);
      case RamData(g) =>
        n := CopyRamData(g, offset, dest, at, maxLen);
      case DynamicTemplate(_) =>
        n := 0;
      case Conditional(_) =>
        n := 0;
      case Iterator(_) =>
        n := 0;
    }
  }

  class Registry {
    const maxPlaceholders: nat
    const placeholders: array<PlaceholderEntry>
    var count: nat

    ghost predicate Valid()
      reads this, placeholders
    {
      placeholders.Length == maxPlaceholders && count <= maxPlaceholders &&
      forall i :: 0 <= i < count ==>
        |placeholders[i].name| < MaxPlaceholderNameSize && WellFormedEntry(placeholders[i])
    }

    /** The registered entries, oldest first. */
    function Entries(): seq<PlaceholderEntry>
      reads this, placeholders
      requires Valid()
    {
      placeholders[..count]
    }

    constructor (maxPlaceholders: nat)
      requires maxPlaceholders <= 0xFFFF
      ensures Valid() && fresh(placeholders)
      ensures this.maxPlaceholders == maxPlaceholders && Entries() == []
      ensures forall i :: 0 <= i < maxPlaceholders ==> placeholders[i] == EmptyEntry
    {
      this.maxPlaceholders := maxPlaceholders;
      placeholders := new PlaceholderEntry[maxPlaceholders](_ => EmptyEntry);
      count := 0;
    }

    /** Writes `e` into slot `count` and bumps `count`; the slots after it keep their contents. */
    method Append(e: PlaceholderEntry)
      requires Valid() && count < maxPlaceholders
      requires |e.name| < MaxPlaceholderNameSize && WellFormedEntry(e)
      modifies this, placeholders
      ensures Valid()
      ensures count == old(count) + 1 && Entries() == old(Entries()) + [e]
      ensures forall i :: count <= i < maxPlaceholders ==> placeholders[i] == old(placeholders[i])
    {
      placeholders[count] := e;
      count := count + 1;
      assert Entries() == old(Entries()) + [e];
    }

    method RegisterProgmemData(name: Option<CString>, progmemData: Option<CString>) returns (ok: bool)
      requires Valid()
      modifies this, placeholders
      ensures Valid()
      ensures ok == (old(count) < maxPlaceholders && ValidatePlaceholderName(name))
      ensures ok ==> count == old(count) + 1
      ensures ok ==> Entries() == old(Entries()) + [PlaceholderEntry(name.value, ProgmemData(progmemData))]
      ensures !ok ==> count == old(count) && placeholders[..] == old(placeholders[..])
    {
      if count >= maxPlaceholders {
        return false;
      }
      if !ValidatePlaceholderName(name) {
        return false;
      }
      Append(PlaceholderEntry(name.value, ProgmemData(progmemData)));
      return true;
    }

    method RegisterProgmemTemplate(name: Option<CString>, progmemTemplate: Option<CString>) returns (ok: bool)
      requires Valid()
      modifies this, placeholders
      ensures Valid()
      ensures ok == (old(count) < maxPlaceholders && ValidatePlaceholderName(name))
      ensures ok ==> count == old(count) + 1
      ensures ok ==> Entries() == old(Entries()) + [PlaceholderEntry(name.value, ProgmemTemplate(progmemTemplate))]
      ensures !ok ==> count == old(count) && placeholders[..] == old(placeholders[..])
    {
      if count >= maxPlaceholders {
        return false;
      }
      if !ValidatePlaceholderName(name) {
        return false;
      }
      Append(PlaceholderEntry(name.value, ProgmemTemplate(progmemTemplate)));
      return true;
    }

    method RegisterRamData(name: Option<CString>, getter: Callback<Option<CString>>) returns (ok: bool)
      requires Valid()
      modifies this, placeholders
      ensures Valid()
      ensures ok == (old(count) < maxPlaceholders && ValidatePlaceholderName(name) && getter.Callback?)
      ensures ok ==> count == old(count) + 1
      ensures ok ==> Entries() == old(Entries()) + [PlaceholderEntry(name.value, RamData(getter))]
      ensures !ok ==> count == old(count) && placeholders[..] == old(placeholders[..])
    {
      if count >= maxPlaceholders {
        return false;
      }
      if !ValidatePlaceholderName(name) {
        return false;
      }
      if getter.NullCallback? {
        return false;
      }
      Append(PlaceholderEntry(name.value, RamData(getter)));
      return true;
    }

    method RegisterDynamicTemplate(name: Option<CString>, descriptor: Option<DynamicTemplateDescriptor>)
      returns (ok: bool)
      requires Valid()
      requires WellFormedSource(DynamicTemplate(descriptor))
      modifies this, placeholders
      ensures Valid()
      ensures ok == (old(count) < maxPlaceholders && ValidatePlaceholderName(name)
                     && descriptor.Some? && descriptor.value.getter.Callback?)
      ensures ok ==> count == old(count) + 1
      ensures ok ==> Entries() == old(Entries()) + [PlaceholderEntry(name.value, DynamicTemplate(descriptor))]
      ensures !ok ==> count == old(count) && placeholders[..] == old(placeholders[..])
    {
      if count >= maxPlaceholders {
        return false;
      }
      if !ValidatePlaceholderName(name) {
        return false;
      }
      if descriptor.None? || descriptor.value.getter.NullCallback? {
        return false;
      }
      Append(PlaceholderEntry(name.value, DynamicTemplate(descriptor)));
      return true;
    }

    method RegisterConditional(name: Option<CString>, descriptor: Option<ConditionalDescriptor>)
      returns (ok: bool)
      requires Valid()
      modifies this, placeholders
      ensures Valid()
      ensures ok == (old(count) < maxPlaceholders && ValidatePlaceholderName(name)
                     && descriptor.Some? && descriptor.value.evaluate.Callback?)
      ensures ok ==> count == old(count) + 1
      ensures ok ==> Entries() == old(Entries()) + [PlaceholderEntry(name.value, Conditional(descriptor))]
      ensures !ok ==> count == old(count) && placeholders[..] == old(placeholders[..])
    {
      if count >= maxPlaceholders {
        return false;
      }
      if !ValidatePlaceholderName(name) {
        return false;
      }
      if descriptor.None? || descriptor.value.evaluate.NullCallback? {
        return false;
      }
      Append(PlaceholderEntry(name.value, Conditional(descriptor)));
      return true;
    }

    method RegisterIterator(name: Option<CString>, descriptor: Option<IteratorDescriptor>)
      returns (ok: bool)
      requires Valid()
      requires WellFormedSource(Iterator(descriptor))
      modifies this, placeholders
      ensures Valid()
      ensures ok == (old(count) < maxPlaceholders && ValidatePlaceholderName(name)
                     && descriptor.Some? && descriptor.value.next.Callback?)
      ensures ok ==> count == old(count) + 1
      ensures ok ==> Entries() == old(Entries()) + [PlaceholderEntry(name.value, Iterator(descriptor))]
      ensures !ok ==> count == old(count) && placeholders[..] == old(placeholders[..])
    {
      if count >= maxPlaceholders {
        return false;
      }
      if !ValidatePlaceholderName(name) {
        return false;
      }
      if descriptor.None? || descriptor.value.next.NullCallback? {
        return false;
      }
      Append(PlaceholderEntry(name.value, Iterator(descriptor)));
      return true;
    }

    /** Forgets every entry and zero-fills the table; the capacity stays. */
    method Clear()
      requires Valid()
      modifies this, placeholders
      ensures Valid() && Entries() == [] && count == 0
      ensures forall i :: 0 <= i < placeholders.Length ==> placeholders[i] == EmptyEntry
    {
      count := 0;
      forall i | 0 <= i < placeholders.Length {
        placeholders[i] := EmptyEntry;
      }
    }

    /** `getPlaceholder`: the newest entry with exactly this name, scanning down from `count - 1`. */
    method GetPlaceholder(name: Option<CString>) returns (r: Option<PlaceholderEntry>)
      requires Valid()
      ensures r == Lookup(Entries(), name)
    {
      if name.None? {
        return None;
      }
      var i: int := count - 1;
      while i >= 0
        invariant -1 <= i < count
        invariant forall j :: i < j < count ==> placeholders[j].name != name.value
      {
        if placeholders[i].name == name.value {
          assert FindIndex(Entries(), name.value) == Some(i);
          return Some(placeholders[i]);
        }
        i := i - 1;
      }
      return None;
    }
  }
}
