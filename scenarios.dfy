/**
 * Whole renderings of a root template `a%NAME%b` whose placeholder is
 * registered, for each kind of entry the renderer expands on its own:
 * static or live data, a static or computed template, a conditional that
 * delegates to data or renders nothing, and an iterator over items.
 *
 * A rendering is followed stage by stage. `Snap` is the snapshot a stage
 * stands for, `Next` what one `renderChunk` round with a given room does to
 * it and `Future` the bytes still to come; the loop of one
 * `renderNextChunk` call then stops at a later stage, and a whole rendering writes
 * `a`, the placeholder's bytes and `b`, whatever the buffer size.
 */
module RenderScenarios {
  import opened TemplateTypes
  import opened PlaceholderRegistry
  import opened TemplateContext
  import opened RenderSpec
  import opened RenderProperties

  /**
   * The root template `a%name%b`, rendered against `reg` by a context that
   * has counted `closes` close hooks; `entry` is what the name resolves to
   * and, for a conditional, `delegate` the entry its branch resolves to.
   */
  datatype Scenario = Scenario(a: CString, name: CString, b: CString, isProgmem: bool, closes: nat,
                               reg: Registered, entry: PlaceholderEntry, delegate: Option<PlaceholderEntry>)

  /** The registered name of the placeholder, delimiters included. */
  function Key(sc: Scenario): CString
  {
    ['%'] + sc.name + ['%']
  }

  function Root(sc: Scenario): CString
  {
    OneToken(sc.a, sc.name, sc.b)
  }

  /** The position in the root template just after the token. */
  function TokenEnd(sc: Scenario): nat
  {
    |sc.a| + |sc.name| + 2
  }

  function RootAt(sc: Scenario, p: nat): Frame
  {
    TemplateFrame("ROOT", Root(sc), |Root(sc)|, sc.isProgmem, p, [])
  }

  /** How the renderer expands the entry. */
  datatype Shape = DataShape | TemplateShape | ConditionalDataShape | SkipShape | IteratorShape

  function ShapeOf(sc: Scenario): Shape
  {
    match sc.entry.source
    case ProgmemData(_) => DataShape
    case RamData(_) => DataShape
    case ProgmemTemplate(_) => TemplateShape
    case DynamicTemplate(_) => TemplateShape
    case Conditional(_) => if sc.delegate.Some? then ConditionalDataShape else SkipShape
    case Iterator(_) => IteratorShape
  }

  /** An iterator item whose template is present and has no placeholder of its own. */
  predicate PlainItem(it: IteratorItem)
  {
    it.templateData.Some? && ItemLength(it) <= |ItemText(it)| && NoPercentIn(ItemText(it), 0, ItemLength(it))
  }

  /**
   * Entries rendered to the end: any data entry; a template (static, or
   * computed by a present getter) without placeholders of its own; a
   * conditional with an evaluator whose branch names a data entry or
   * nothing; an iterator with `next` whose items all have plain templates
   * and whose stream ends in COMPLETE.
   */
  predicate Supported(sc: Scenario)
  {
    match sc.entry.source
    case ProgmemData(_) => true
    case RamData(_) => true
    case ProgmemTemplate(_) => NoPercentIn(Payload(sc.entry.source), 0, |Payload(sc.entry.source)|)
    case DynamicTemplate(d) =>
      d.Some? && d.value.getter.Callback? && NoPercentIn(DynamicText(d.value), 0, DynamicLength(d.value))
    case Conditional(d) =>
      d.Some? && d.value.evaluate.Callback? &&
      (sc.delegate.Some? ==> BranchTarget(d.value).Some? &&
                             (sc.delegate.value.source.ProgmemData? || sc.delegate.value.source.RamData?))
    case Iterator(d) =>
      d.Some? && d.value.next.Callback? && !d.value.next.result.failsAtEnd &&
      forall i :: 0 <= i < |d.value.next.result.items| ==> PlainItem(d.value.next.result.items[i])
  }

  /** `a` and `b` are plain text, `name` fits the token accumulator and its entry is supported. */
  predicate ScenarioOk(sc: Scenario)
  {
    NoPercentIn(sc.a, 0, |sc.a|) && NoPercentIn(sc.name, 0, |sc.name|) && NoPercentIn(sc.b, 0, |sc.b|) &&
    |sc.name| + 2 <= MaxTokenLength &&
    RegistryOk(sc.reg) && WellFormedEntry(sc.entry) && sc.entry.name == Key(sc) && Supported(sc)
  }

  /** The scenario's entries are the ones the registry resolves the names to. */
  predicate Resolved(sc: Scenario)
  {
    sc.reg.Some? && Lookup(sc.reg.value, Some(Key(sc))) == Some(sc.entry) &&
    (sc.entry.source.Conditional? && sc.entry.source.conditionalDescriptor.Some? &&
     sc.entry.source.conditionalDescriptor.value.evaluate.Callback? ==>
       sc.delegate == Lookup(sc.reg.value, BranchTarget(sc.entry.source.conditionalDescriptor.value)))
  }

  // ---------------------------------------------------------------------------
  // What each kind of entry renders

  predicate IsData(sc: Scenario)
  {
    ShapeOf(sc) == DataShape || ShapeOf(sc) == ConditionalDataShape
  }

  /** The data entry that is streamed: the entry itself, or the delegate of the conditional. */
  function DataEntry(sc: Scenario): PlaceholderEntry
    requires IsData(sc)
  {
    if ShapeOf(sc) == DataShape then sc.entry else sc.delegate.value
  }

  function CondDesc(sc: Scenario): ConditionalDescriptor
    requires ScenarioOk(sc) && ShapeOf(sc) == ConditionalDataShape
  {
    sc.entry.source.conditionalDescriptor.value
  }

  function DataName(sc: Scenario): CString
    requires ScenarioOk(sc) && IsData(sc)
  {
    if ShapeOf(sc) == DataShape then Key(sc) else BranchTarget(CondDesc(sc)).value
  }

  function DataBytes(sc: Scenario): CString
    requires IsData(sc)
  {
    Payload(DataEntry(sc).source)
  }

  /** The frames between the root and the data frame: the resolved conditional, if any. */
  function DataCarriers(sc: Scenario): seq<Frame>
    requires ScenarioOk(sc) && IsData(sc)
  {
    if ShapeOf(sc) == DataShape then []
    else [ConditionalFrame(Key(sc), sc.entry, CondDesc(sc), true, BranchTarget(CondDesc(sc)), sc.delegate)]
  }

  function InnerText(sc: Scenario): (t: CString)
    requires ScenarioOk(sc) && ShapeOf(sc) == TemplateShape
    ensures InnerLen(sc) <= |t|
  {
    assert WellFormedSource(sc.entry.source);
    match sc.entry.source
    case DynamicTemplate(d) => DynamicText(d.value)
    case _ => Payload(sc.entry.source)
  }

  function InnerLen(sc: Scenario): nat
  {
    match sc.entry.source
    case DynamicTemplate(d) => if d.Some? then DynamicLength(d.value) else 0
    case _ => |Payload(sc.entry.source)|
  }

  /** The carrier frame below a nested template. */
  function Carrier(sc: Scenario): Frame
    requires ScenarioOk(sc) && ShapeOf(sc) == TemplateShape
  {
    match sc.entry.source
    case DynamicTemplate(d) => DynamicTemplateFrame(Key(sc), sc.entry, 0, DynamicText(d.value), DynamicLength(d.value))
    case _ => TemplatePlaceholderFrame(Key(sc), sc.entry)
  }

  function InnerAt(sc: Scenario, p: nat): Frame
    requires ScenarioOk(sc) && ShapeOf(sc) == TemplateShape
  {
    TemplateFrame(Key(sc), InnerText(sc), InnerLen(sc), !sc.entry.source.DynamicTemplate?, p, [])
  }

  function Desc(sc: Scenario): IteratorDescriptor
    requires ScenarioOk(sc) && ShapeOf(sc) == IteratorShape
  {
    sc.entry.source.descriptor.value
  }

  function Items(sc: Scenario): seq<IteratorItem>
    requires ScenarioOk(sc) && ShapeOf(sc) == IteratorShape
  {
    Desc(sc).next.result.items
  }

  /** The iterator frame as pushed. */
  function FreshFrame(sc: Scenario): Frame
    requires ScenarioOk(sc) && ShapeOf(sc) == IteratorShape
  {
    IteratorFrame(Key(sc), sc.entry, Some(Desc(sc)), false, false, false, 0)
  }

  /** The iterator frame after `c` answers of `next`. */
  function IterFrame(sc: Scenario, c: nat): Frame
    requires ScenarioOk(sc) && ShapeOf(sc) == IteratorShape
  {
    if c == 0 then FreshFrame(sc)
    else
      var g := Opened(FreshFrame(sc), Desc(sc));
      assert g.IteratorFrame?;
      g.(cursor := c)
  }

  lemma IteratorFacts(sc: Scenario)
    requires ScenarioOk(sc) && ShapeOf(sc) == IteratorShape
    ensures WellFormedIterator(Desc(sc))
    ensures forall c :: 0 <= c < |Items(sc)| ==> WellFormedItem(Items(sc)[c]) && PlainItem(Items(sc)[c])
  {
    assert WellFormedSource(sc.entry.source);
  }

  /** Close hooks the rendering calls: one for an iterator whose handle was opened with a close hook. */
  function CloseCount(sc: Scenario): nat
    requires ScenarioOk(sc)
  {
    if ShapeOf(sc) == IteratorShape && Opened(FreshFrame(sc), Desc(sc)).handleOpen && Desc(sc).hasClose then 1 else 0
  }

  function ItemOut(it: IteratorItem): seq<char>
    requires ItemLength(it) <= |ItemText(it)|
  {
    ItemText(it)[..ItemLength(it)]
  }

  lemma ItemIsPlain(sc: Scenario, c: nat)
    requires ScenarioOk(sc) && ShapeOf(sc) == IteratorShape && c < |Items(sc)|
    ensures PlainItem(Items(sc)[c])
  {
  }

  /** The bytes of items `c` onwards. */
  function ItemsOut(sc: Scenario, c: nat): seq<char>
    requires ScenarioOk(sc) && ShapeOf(sc) == IteratorShape && c <= |Items(sc)|
    decreases |Items(sc)| - c
  {
    if c == |Items(sc)| then []
    else
      ItemIsPlain(sc, c);
      ItemOut(Items(sc)[c]) + ItemsOut(sc, c + 1)
  }

  /** The number of bytes of the first `c` items. */
  function ItemsDone(sc: Scenario, c: nat): nat
    requires ScenarioOk(sc) && ShapeOf(sc) == IteratorShape && c <= |Items(sc)|
  {
    if c == 0 then 0 else ItemsDone(sc, c - 1) + ItemLength(Items(sc)[c - 1])
  }

  /** What the placeholder renders as. */
  function Rendered(sc: Scenario): seq<char>
    requires ScenarioOk(sc)
  {
    match ShapeOf(sc)
    case DataShape => DataBytes(sc)
    case ConditionalDataShape => DataBytes(sc)
    case TemplateShape => InnerText(sc)[..InnerLen(sc)]
    case SkipShape => []
    case IteratorShape => ItemsOut(sc, 0)
  }

  // ---------------------------------------------------------------------------
  // Stages

  /** Where a rendering of `a%name%b` is. */
  datatype Stage =
    | Before(p: nat)                   // TEXT, at byte p of `a`
    | InToken                          // BUILDING_PLACEHOLDER, right after the opening `%`
    | InData(offset: nat)              // RENDERING_CONTEXT, streaming the data from `offset`
    | InTemplate(pos: nat)             // TEXT, in the nested template at `pos`
    | Skipped                          // RENDERING_CONTEXT over the root: a conditional with nothing to render
    | IterAt(cursor: nat)              // RENDERING_CONTEXT over the iterator, before its answer `cursor`
    | IterItem(cursor: nat, pos: nat)  // TEXT, in item `cursor` at `pos`
    | After(i: nat)                    // TEXT, at byte i of `b`
    | Done                             // COMPLETE

  predicate StageOk(sc: Scenario, st: Stage)
  {
    ScenarioOk(sc) &&
    match st
    case Before(p) => p <= |sc.a|
    case InToken => true
    case InData(o) => IsData(sc) && o <= |DataBytes(sc)|
    case InTemplate(p) => ShapeOf(sc) == TemplateShape && p <= InnerLen(sc)
    case Skipped => ShapeOf(sc) == SkipShape
    case IterAt(c) => ShapeOf(sc) == IteratorShape && c <= |Items(sc)|
    case IterItem(c, p) => ShapeOf(sc) == IteratorShape && c < |Items(sc)| && p <= ItemLength(Items(sc)[c])
    case After(i) => i <= |sc.b|
    case Done => true
  }

  /** The stage right after the placeholder's frames went on. */
  function Start(sc: Scenario): (st: Stage)
    requires ScenarioOk(sc)
    ensures StageOk(sc, st) && !st.Before? && !st.InToken? && !st.Done?
  {
    match ShapeOf(sc)
    case DataShape => InData(0)
    case ConditionalDataShape => InData(0)
    case TemplateShape => InTemplate(0)
    case SkipShape => Skipped
    case IteratorShape => IterAt(0)
  }

  /** The snapshot a stage stands for. */
  function Snap(sc: Scenario, st: Stage): (s: Snapshot)
    requires StageOk(sc, st)
    ensures Inv(s) && (Terminal(s.state) <==> st.Done?)
  {
    var q := TokenEnd(sc);
    var a := |sc.a|;
    match st
    case Before(p) => Snapshot(Text, [RootAt(sc, p)], [], p, sc.closes)
    case InToken => Snapshot(BuildingPlaceholder, [RootAt(sc, a + 1)], "%", a, sc.closes)
    case InData(o) =>
      Snapshot(RenderingContext, [RootAt(sc, q)] + DataCarriers(sc) + [DataFrame(DataName(sc), DataEntry(sc), o)],
               [], a + o, sc.closes)
    case InTemplate(p) => Snapshot(Text, [RootAt(sc, q), Carrier(sc), InnerAt(sc, p)], [], a + p, sc.closes)
    case Skipped => Snapshot(RenderingContext, [RootAt(sc, q)], [], a, sc.closes)
    case IterAt(c) =>
      IteratorFacts(sc);
      Snapshot(RenderingContext, [RootAt(sc, q), IterFrame(sc, c)], [], a + ItemsDone(sc, c), sc.closes)
    case IterItem(c, p) =>
      IteratorFacts(sc);
      Snapshot(Text, [RootAt(sc, q), IterFrame(sc, c + 1), ItemFrame(Key(sc), Items(sc)[c]).(position := p)], [],
               a + ItemsDone(sc, c) + p, sc.closes)
    case After(i) => Snapshot(Text, [RootAt(sc, q + i)], [], a + |Rendered(sc)| + i, sc.closes + CloseCount(sc))
    case Done => Snapshot(Completed, [], [], a + |Rendered(sc)| + |sc.b|, sc.closes + CloseCount(sc))
  }

  /** The bytes still to be written from a stage on. */
  function Future(sc: Scenario, st: Stage): seq<char>
    requires StageOk(sc, st)
  {
    match st
    case Before(p) => sc.a[p..] + Rendered(sc) + sc.b
    case InToken => Rendered(sc) + sc.b
    case InData(o) => DataBytes(sc)[o..] + sc.b
    case InTemplate(p) => InnerText(sc)[p..InnerLen(sc)] + sc.b
    case Skipped => sc.b
    case IterAt(c) => ItemsOut(sc, c) + sc.b
    case IterItem(c, p) =>
      ItemIsPlain(sc, c);
      ItemText(Items(sc)[c])[p..ItemLength(Items(sc)[c])] + ItemsOut(sc, c + 1) + sc.b
    case After(i) => sc.b[i..]
    case Done => []
  }

  function IterMeasure(sc: Scenario, c: nat): nat
    requires ScenarioOk(sc) && ShapeOf(sc) == IteratorShape && c <= |Items(sc)|
    decreases |Items(sc)| - c
  {
    if c == |Items(sc)| then |sc.b| + 2 else ItemLength(Items(sc)[c]) + 2 + IterMeasure(sc, c + 1)
  }

  function InnerMeasure(sc: Scenario, st: Stage): nat
    requires StageOk(sc, st) && !st.Before? && !st.InToken?
  {
    match st
    case InData(o) => |DataBytes(sc)| - o + |sc.b| + 2
    case InTemplate(p) => InnerLen(sc) - p + |sc.b| + 2
    case Skipped => |sc.b| + 2
    case IterAt(c) => IterMeasure(sc, c)
    case IterItem(c, p) => ItemLength(Items(sc)[c]) - p + 1 + IterMeasure(sc, c + 1)
    case After(i) => |sc.b| - i + 1
    case Done => 0
  }

  /** A bound on the rounds left, which every round lowers. */
  function Measure(sc: Scenario, st: Stage): nat
    requires StageOk(sc, st)
  {
    match st
    case Before(p) => |sc.a| - p + 2 + InnerMeasure(sc, Start(sc))
    case InToken => 1 + InnerMeasure(sc, Start(sc))
    case _ => InnerMeasure(sc, st)
  }

  /** A round in `b`: as much as fits of the rest, and COMPLETE once it is all written. */
  function AfterNext(sc: Scenario, i: nat, rem: nat): (r: (Stage, seq<char>))
    requires ScenarioOk(sc) && i <= |sc.b| && rem > 0
    ensures StageOk(sc, r.0) && |r.1| <= rem
    ensures r.1 + Future(sc, r.0) == sc.b[i..] && Measure(sc, r.0) <= |sc.b| - i
  {
    if i < |sc.b| then
      var k := Min(rem, |sc.b| - i);
      assert sc.b[i..i + k] + sc.b[i + k..] == sc.b[i..];
      (After(i + k), sc.b[i..i + k])
    else (Done, [])
  }

  /** A round in `a`: up to the `%` when it fits, which then starts the token. */
  function BeforeNext(sc: Scenario, p: nat, rem: nat): (r: (Stage, seq<char>))
    requires StageOk(sc, Before(p)) && rem > 0
    ensures StageOk(sc, r.0) && |r.1| <= rem
    ensures r.1 + Future(sc, r.0) == Future(sc, Before(p))
    ensures Measure(sc, r.0) < Measure(sc, Before(p))
  {
    if |sc.a| - p < rem then
      BeforeToToken(sc, p);
      (InToken, sc.a[p..])
    else
      BeforeInA(sc, p, rem);
      (Before(p + rem), sc.a[p..p + rem])
  }

  lemma BeforeToToken(sc: Scenario, p: nat)
    requires StageOk(sc, Before(p))
    ensures sc.a[p..] + Future(sc, InToken) == Future(sc, Before(p))
    ensures Measure(sc, InToken) < Measure(sc, Before(p))
  {
    assert sc.a[p..] + Rendered(sc) + sc.b == sc.a[p..] + (Rendered(sc) + sc.b);
  }

  lemma BeforeInA(sc: Scenario, p: nat, rem: nat)
    requires StageOk(sc, Before(p)) && 0 < rem <= |sc.a| - p
    ensures StageOk(sc, Before(p + rem))
    ensures sc.a[p..p + rem] + Future(sc, Before(p + rem)) == Future(sc, Before(p))
    ensures Measure(sc, Before(p + rem)) < Measure(sc, Before(p))
  {
    assert sc.a[p..p + rem] + sc.a[p + rem..] == sc.a[p..];
  }

  /** The round that resolves the token and pushes the placeholder's frames. */
  function TokenNext(sc: Scenario): (r: (Stage, seq<char>))
    requires StageOk(sc, InToken)
    ensures StageOk(sc, r.0) && r.1 == []
    ensures r.1 + Future(sc, r.0) == Future(sc, InToken)
    ensures Measure(sc, r.0) < Measure(sc, InToken)
  {
    assert Future(sc, Start(sc)) == Future(sc, InToken) by {
      if IsData(sc) {
        assert DataBytes(sc)[0..] == DataBytes(sc);
      } else if ShapeOf(sc) == TemplateShape {
        assert InnerText(sc)[0..InnerLen(sc)] == InnerText(sc)[..InnerLen(sc)];
      }
    }
    (Start(sc), [])
  }

  /** A round of data: the next chunk, and the unwinding once it is all written. */
  function DataNext(sc: Scenario, o: nat, rem: nat): (r: (Stage, seq<char>))
    requires StageOk(sc, InData(o)) && rem > 0
    ensures StageOk(sc, r.0) && |r.1| <= rem
    ensures r.1 + Future(sc, r.0) == Future(sc, InData(o))
    ensures Measure(sc, r.0) < Measure(sc, InData(o))
  {
    var d := DataBytes(sc);
    if o < |d| then
      var n := ChunkLength(|d|, o, rem, ChunkCap(DataEntry(sc).source));
      assert d[o..o + n] + d[o + n..] == d[o..];
      (InData(o + n), d[o..o + n])
    else
      assert d[o..] == [] && sc.b[0..] == sc.b;
      (After(0), [])
  }

  /** A round of the nested template: as much as fits, and the unwinding at its end. */
  function TemplateNext(sc: Scenario, p: nat, rem: nat): (r: (Stage, seq<char>))
    requires StageOk(sc, InTemplate(p)) && rem > 0
    ensures StageOk(sc, r.0) && |r.1| <= rem
    ensures r.1 + Future(sc, r.0) == Future(sc, InTemplate(p))
    ensures Measure(sc, r.0) < Measure(sc, InTemplate(p))
  {
    var len := InnerLen(sc);
    if p < len then
      var k := Min(rem, len - p);
      InInner(sc, p, k);
      (InTemplate(p + k), InnerText(sc)[p..p + k])
    else
      InnerEnd(sc, p);
      (After(0), [])
  }

  lemma InInner(sc: Scenario, p: nat, k: nat)
    requires StageOk(sc, InTemplate(p)) && 0 < k && p + k <= InnerLen(sc)
    ensures StageOk(sc, InTemplate(p + k))
    ensures InnerText(sc)[p..p + k] + Future(sc, InTemplate(p + k)) == Future(sc, InTemplate(p))
    ensures Measure(sc, InTemplate(p + k)) < Measure(sc, InTemplate(p))
  {
    var t := InnerText(sc);
    var len := InnerLen(sc);
    assert t[p..p + k] + t[p + k..len] == t[p..len];
  }

  lemma InnerEnd(sc: Scenario, p: nat)
    requires StageOk(sc, InTemplate(p)) && p == InnerLen(sc)
    ensures StageOk(sc, After(0))
    ensures Future(sc, After(0)) == Future(sc, InTemplate(p))
    ensures Measure(sc, After(0)) < Measure(sc, InTemplate(p))
  {
    assert InnerText(sc)[p..p] == [] && sc.b[0..] == sc.b;
  }

  /** A round of the iterator: the next item's template goes on, or the iterator completes. */
  function IterAtNext(sc: Scenario, c: nat): (r: (Stage, seq<char>))
    requires StageOk(sc, IterAt(c))
    ensures StageOk(sc, r.0) && r.1 == []
    ensures r.1 + Future(sc, r.0) == Future(sc, IterAt(c))
    ensures Measure(sc, r.0) < Measure(sc, IterAt(c))
  {
    if c < |Items(sc)| then
      ItemIsPlain(sc, c);
      var it := Items(sc)[c];
      assert ItemText(it)[0..ItemLength(it)] == ItemOut(it);
      (IterItem(c, 0), [])
    else
      assert sc.b[0..] == sc.b;
      (After(0), [])
  }

  /** A round of an item's template: as much as fits, and back to the iterator at its end. */
  function IterItemNext(sc: Scenario, c: nat, p: nat, rem: nat): (r: (Stage, seq<char>))
    requires StageOk(sc, IterItem(c, p)) && rem > 0
    ensures StageOk(sc, r.0) && |r.1| <= rem
    ensures r.1 + Future(sc, r.0) == Future(sc, IterItem(c, p))
    ensures Measure(sc, r.0) < Measure(sc, IterItem(c, p))
  {
    ItemIsPlain(sc, c);
    var it := Items(sc)[c];
    var len := ItemLength(it);
    if p < len then
      var k := Min(rem, len - p);
      InItem(sc, c, p, k);
      (IterItem(c, p + k), ItemText(it)[p..p + k])
    else
      ItemEnd(sc, c, p);
      (IterAt(c + 1), [])
  }

  lemma InItem(sc: Scenario, c: nat, p: nat, k: nat)
    requires StageOk(sc, IterItem(c, p)) && 0 < k && p + k <= ItemLength(Items(sc)[c])
    ensures PlainItem(Items(sc)[c]) && StageOk(sc, IterItem(c, p + k))
    ensures ItemText(Items(sc)[c])[p..p + k] + Future(sc, IterItem(c, p + k)) == Future(sc, IterItem(c, p))
    ensures Measure(sc, IterItem(c, p + k)) < Measure(sc, IterItem(c, p))
  {
    ItemIsPlain(sc, c);
    var t := ItemText(Items(sc)[c]);
    var len := ItemLength(Items(sc)[c]);
    assert t[p..p + k] + t[p + k..len] == t[p..len];
  }

  lemma ItemEnd(sc: Scenario, c: nat, p: nat)
    requires StageOk(sc, IterItem(c, p)) && p == ItemLength(Items(sc)[c])
    ensures StageOk(sc, IterAt(c + 1))
    ensures Future(sc, IterAt(c + 1)) == Future(sc, IterItem(c, p))
    ensures Measure(sc, IterAt(c + 1)) < Measure(sc, IterItem(c, p))
  {
    ItemIsPlain(sc, c);
    var t := ItemText(Items(sc)[c]);
    assert t[p..p] == [];
  }

  /**
   * One `renderChunk` round with `rem` bytes of room: the stage it leads to
   * and the bytes it writes, which are the next bytes of what is to come.
   */
  function Next(sc: Scenario, st: Stage, rem: nat): (r: (Stage, seq<char>))
    requires StageOk(sc, st) && rem > 0 && !st.Done?
    ensures StageOk(sc, r.0) && |r.1| <= rem
    ensures r.1 + Future(sc, r.0) == Future(sc, st)
    ensures Measure(sc, r.0) < Measure(sc, st)
  {
    match st
    case Before(p) => BeforeNext(sc, p, rem)
    case InToken => TokenNext(sc)
    case InData(o) => DataNext(sc, o, rem)
    case InTemplate(p) => TemplateNext(sc, p, rem)
    case Skipped =>
      assert sc.b[0..] == sc.b;
      AfterNext(sc, 0, rem)
    case IterAt(c) => IterAtNext(sc, c)
    case IterItem(c, p) => IterItemNext(sc, c, p, rem)
    case After(i) => AfterNext(sc, i, rem)
  }

  // ---------------------------------------------------------------------------
  // The rounds, stage by stage

  lemma NoPercentWithin(d: seq<char>, lo: nat, hi: nat, lo2: nat, hi2: nat)
    requires NoPercentIn(d, lo, hi) && lo <= lo2 && hi2 <= hi
    ensures NoPercentIn(d, lo2, hi2)
  {
  }

  lemma NoPercentOf(d: seq<char>)
    requires '%' !in d
    ensures NoPercentIn(d, 0, |d|)
  {
  }

  /** Where the parts of the root template lie. */
  lemma RootFacts(sc: Scenario)
    requires ScenarioOk(sc)
    ensures |Root(sc)| == TokenEnd(sc) + |sc.b|
    ensures NoPercentIn(Root(sc), 0, |sc.a|) && Root(sc)[|sc.a|] == '%'
    ensures NoPercentIn(Root(sc), |sc.a| + 1, TokenEnd(sc) - 1) && Root(sc)[TokenEnd(sc) - 1] == '%'
    ensures NoPercentIn(Root(sc), TokenEnd(sc), |Root(sc)|)
    ensures Root(sc)[|sc.a| + 1..TokenEnd(sc)] == sc.name + ['%']
  {
    var r := Root(sc);
    var q := TokenEnd(sc);
    OneTokenShape(sc.a, sc.name, sc.b);
    assert r[|sc.a| + 1..q] == r[|sc.a|..q][1..];
  }

  lemma RootInA(sc: Scenario, i: nat, j: nat)
    requires ScenarioOk(sc) && i <= j <= |sc.a|
    ensures Root(sc)[i..j] == sc.a[i..j]
  {
    OneTokenShape(sc.a, sc.name, sc.b);
    assert Root(sc)[i..j] == Root(sc)[..|sc.a|][i..j];
  }

  lemma RootInB(sc: Scenario, i: nat, j: nat)
    requires ScenarioOk(sc) && i <= j <= |sc.b|
    ensures TokenEnd(sc) + j <= |Root(sc)| && Root(sc)[TokenEnd(sc) + i..TokenEnd(sc) + j] == sc.b[i..j]
  {
    var q := TokenEnd(sc);
    OneTokenShape(sc.a, sc.name, sc.b);
    assert Root(sc)[q + i..q + j] == Root(sc)[q..][i..j];
  }

  /** The nested template has no `%` of its own. */
  lemma InnerPlain(sc: Scenario)
    requires ScenarioOk(sc) && ShapeOf(sc) == TemplateShape
    ensures NoPercentIn(InnerText(sc), 0, InnerLen(sc))
  {
  }

  /** The snapshot the token's round hands to the push: the token read and cleared. */
  function TokenBase(sc: Scenario): (s: Snapshot)
    requires ScenarioOk(sc)
    ensures Inv(s)
  {
    Snapshot(BuildingPlaceholder, [RootAt(sc, TokenEnd(sc))], [], |sc.a|, sc.closes)
  }

  /**
   * The push the resolved token asks for puts on the frames of the
   * placeholder's start stage, and its state is that stage's.
   */
  lemma TokenPush(sc: Scenario)
    requires ScenarioOk(sc) && Resolved(sc)
    ensures var p := PushFor(sc.entry.source);
            ApplyPush(TokenBase(sc), sc.reg, p.0, sc.entry) == (true, Snap(sc, Start(sc)).(state := BuildingPlaceholder)) &&
            p.1 == Snap(sc, Start(sc)).state
  {
    match ShapeOf(sc)
    case DataShape => DataPush(sc);
    case ConditionalDataShape => ConditionalPush(sc);
    case SkipShape => SkipPush(sc);
    case TemplateShape =>
      if sc.entry.source.ProgmemTemplate? {
        StaticPush(sc);
      } else {
        DynamicPush(sc);
      }
    case IteratorShape => IterPush(sc);
  }

  lemma DataPush(sc: Scenario)
    requires ScenarioOk(sc) && ShapeOf(sc) == DataShape
    ensures ApplyPush(TokenBase(sc), sc.reg, PlaceholderDataContext, sc.entry) ==
              (true, Snap(sc, InData(0)).(state := BuildingPlaceholder))
  {
    var x := TokenBase(sc);
    var df := DataFrame(Key(sc), sc.entry, 0);
    assert ApplyPush(x, sc.reg, PlaceholderDataContext, sc.entry) == PushOne(x, df);
    assert [RootAt(sc, TokenEnd(sc))] + DataCarriers(sc) + [df] == x.stack + [df];
  }

  lemma ConditionalPush(sc: Scenario)
    requires ScenarioOk(sc) && Resolved(sc) && ShapeOf(sc) == ConditionalDataShape
    ensures ApplyPush(TokenBase(sc), sc.reg, PlaceholderConditionalContext, sc.entry) ==
              (true, Snap(sc, InData(0)).(state := BuildingPlaceholder))
  {
    var x := TokenBase(sc);
    var e := sc.entry;
    assert DelegateFound(sc.reg, e);
    ConditionalDataDelegate(x, sc.reg, e);
    var df := DataFrame(DelegateName(sc.reg, e), Delegate(sc.reg, e), 0);
    assert DataCarriers(sc) == [ResolvedFrame(sc.reg, e)];
    assert [RootAt(sc, TokenEnd(sc))] + DataCarriers(sc) + [df] == x.stack + [ResolvedFrame(sc.reg, e), df];
  }

  lemma SkipPush(sc: Scenario)
    requires ScenarioOk(sc) && Resolved(sc) && ShapeOf(sc) == SkipShape
    ensures ApplyPush(TokenBase(sc), sc.reg, PlaceholderConditionalContext, sc.entry) ==
              (true, Snap(sc, Skipped).(state := BuildingPlaceholder))
  {
  }

  lemma StaticPush(sc: Scenario)
    requires ScenarioOk(sc) && sc.entry.source.ProgmemTemplate?
    ensures ApplyPush(TokenBase(sc), sc.reg, PlaceholderTemplateContext, sc.entry) ==
              (true, Snap(sc, InTemplate(0)).(state := BuildingPlaceholder))
  {
    var x := TokenBase(sc);
    var r := PushStaticTemplate(x, sc.entry, Key(sc));
    assert ApplyPush(x, sc.reg, PlaceholderTemplateContext, sc.entry) == r;
    StaticTemplatePush(x, sc.entry, Key(sc));
    assert Carrier(sc) == TemplatePlaceholderFrame(Key(sc), sc.entry);
    assert InnerAt(sc, 0) == TemplateFrame(Key(sc), Payload(sc.entry.source), |Payload(sc.entry.source)|, true, 0, []);
    assert r.0;
    assert r.1 == x.(stack := x.stack + [Carrier(sc), InnerAt(sc, 0)]);
    assert x.stack + [Carrier(sc), InnerAt(sc, 0)] == [RootAt(sc, TokenEnd(sc)), Carrier(sc), InnerAt(sc, 0)];
    assert Snap(sc, InTemplate(0)) == Snapshot(Text, [RootAt(sc, TokenEnd(sc)), Carrier(sc), InnerAt(sc, 0)], [], |sc.a|, sc.closes);
  }

  lemma DynamicPush(sc: Scenario)
    requires ScenarioOk(sc) && sc.entry.source.DynamicTemplate?
    ensures ApplyPush(TokenBase(sc), sc.reg, PlaceholderDynamicTemplateContext, sc.entry) ==
              (true, Snap(sc, InTemplate(0)).(state := BuildingPlaceholder))
  {
    var x := TokenBase(sc);
    var r := PushDynamicTemplate(x, sc.entry, Key(sc));
    assert ApplyPush(x, sc.reg, PlaceholderDynamicTemplateContext, sc.entry) == r;
    DynamicTemplatePush(x, sc.entry, Key(sc));
    var d := sc.entry.source.dynamicDescriptor.value;
    assert GetDynamicTemplateLength(Some(d), Some(DynamicText(d))) == DynamicLength(d);
    assert Carrier(sc) == DynamicTemplateFrame(Key(sc), sc.entry, 0, DynamicText(d), DynamicLength(d));
    assert InnerAt(sc, 0) == TemplateFrame(Key(sc), DynamicText(d), DynamicLength(d), false, 0, []);
    assert r.0;
    assert r.1 == x.(stack := x.stack + [Carrier(sc), InnerAt(sc, 0)]);
    assert x.stack + [Carrier(sc), InnerAt(sc, 0)] == [RootAt(sc, TokenEnd(sc)), Carrier(sc), InnerAt(sc, 0)];
    assert Snap(sc, InTemplate(0)) == Snapshot(Text, [RootAt(sc, TokenEnd(sc)), Carrier(sc), InnerAt(sc, 0)], [], |sc.a|, sc.closes);
  }

  lemma IterPush(sc: Scenario)
    requires ScenarioOk(sc) && ShapeOf(sc) == IteratorShape
    ensures ApplyPush(TokenBase(sc), sc.reg, PlaceholderIteratorContext, sc.entry) ==
              (true, Snap(sc, IterAt(0)).(state := BuildingPlaceholder))
  {
    var x := TokenBase(sc);
    IteratorFacts(sc);
    var r := PushIterator(x, sc.entry, Key(sc), Some(Desc(sc)));
    assert ApplyPush(x, sc.reg, PlaceholderIteratorContext, sc.entry) == r;
    IteratorPush(x, sc.entry, Key(sc), Some(Desc(sc)));
    assert r.0;
    assert r.1 == x.(stack := x.stack + [IterFrame(sc, 0)]);
    assert x.stack + [IterFrame(sc, 0)] == [RootAt(sc, TokenEnd(sc)), IterFrame(sc, 0)];
    assert ItemsDone(sc, 0) == 0;
    assert Snap(sc, IterAt(0)) == Snapshot(RenderingContext, [RootAt(sc, TokenEnd(sc)), IterFrame(sc, 0)], [], |sc.a|, sc.closes);
  }

  /**
   * A round after which the loop goes on: the rest of the loop runs from
   * the round's counted snapshot `next`, with `room` bytes left and `out`
   * written.
   */
  lemma GoesOn(s: Snapshot, reg: Registered, rem: nat, it: nat, w: seq<char>, step: Step,
               next: Snapshot, room: nat, out: seq<char>)
    requires Inv(s) && RegistryOk(reg) && rem > 0 && !Terminal(s.state) && it < MaxIterations
    requires RenderChunk(s, reg, rem) == step && !StopsAfter(step.outcome)
    requires next == Counted(step) && room + |step.output| == rem && out == w + step.output
    ensures Inv(next)
    ensures ChunkLoop(s, reg, rem, it, w) == ChunkLoop(next, reg, room, it + 1, out)
  {
    LoopRound(s, reg, rem, it, w);
    var total := ChunkLoop(s, reg, rem, it, w);
    RoundResult(s, reg, rem, it, w, total, step.outcome, next, out, room);
  }

  /** A round that writes nothing and after which the loop goes on from the round's snapshot. */
  lemma SilentRound(s: Snapshot, reg: Registered, rem: nat, it: nat, w: seq<char>, o: RenderOutcome, next: Snapshot)
    requires Inv(s) && RegistryOk(reg) && rem > 0 && !Terminal(s.state) && it < MaxIterations
    requires RenderChunk(s, reg, rem) == Step(o, next, []) && o.bytesWritten == 0 && !StopsAfter(o)
    ensures Inv(next)
    ensures ChunkLoop(s, reg, rem, it, w) == ChunkLoop(next, reg, rem, it + 1, w)
  {
    var step := RenderChunk(s, reg, rem);
    assert Counted(step) == next && w + step.output == w;
    GoesOn(s, reg, rem, it, w, step, next, rem, w);
  }

  /** `CopyRoundLoop` with the snapshot it leads to and the bytes it writes named by the caller. */
  lemma CopyLoop(s: Snapshot, reg: Registered, rem: nat, it: nat, w: seq<char>, k: nat, next: Snapshot, out: seq<char>)
    requires Inv(s) && RegistryOk(reg) && (s.state == Text || s.state == RenderingContext) && TemplateOnTop(s)
    requires it < MaxIterations
    requires var t := Top(s);
             0 < k <= rem && t.position + k <= t.templateLen && NoPercentIn(t.templateData, t.position, t.position + k) &&
             (k == rem || t.position + k == t.templateLen) &&
             next == At(s, t.position + k).(processed := s.processed + k, state := Text) &&
             out == t.templateData[t.position..t.position + k]
    ensures Inv(next)
    ensures ChunkLoop(s, reg, rem, it, w) == ChunkLoop(next, reg, rem - k, it + 1, w + out)
  {
    CopyRoundLoop(s, reg, rem, it, w, k);
  }

  /** A round in `a` that fills the room. */
  lemma BeforeCopyRound(sc: Scenario, p: nat, rem: nat, it: nat, w: seq<char>)
    requires StageOk(sc, Before(p)) && 0 < rem <= |sc.a| - p && it < MaxIterations
    ensures ChunkLoop(Snap(sc, Before(p)), sc.reg, rem, it, w) ==
              ChunkLoop(Snap(sc, Before(p + rem)), sc.reg, 0, it + 1, w + sc.a[p..p + rem])
  {
    var s := Snap(sc, Before(p));
    RootFacts(sc);
    NoPercentWithin(Root(sc), 0, |sc.a|, p, p + rem);
    assert Top(s) == RootAt(sc, p);
    RootInA(sc, p, p + rem);
    assert At(s, p + rem).(processed := s.processed + rem, state := Text) == Snap(sc, Before(p + rem));
    CopyLoop(s, sc.reg, rem, it, w, rem, Snap(sc, Before(p + rem)), sc.a[p..p + rem]);
  }

  /** A round in `a` with room past it: the rest of `a`, and the opening `%` starts the token. */
  lemma BeforePercentRound(sc: Scenario, p: nat, rem: nat, it: nat, w: seq<char>)
    requires StageOk(sc, Before(p)) && |sc.a| - p < rem && it < MaxIterations
    ensures ChunkLoop(Snap(sc, Before(p)), sc.reg, rem, it, w) ==
              ChunkLoop(Snap(sc, InToken), sc.reg, rem - (|sc.a| - p), it + 1, w + sc.a[p..])
  {
    var s := Snap(sc, Before(p));
    var k := |sc.a| - p;
    RootFacts(sc);
    assert Top(s) == RootAt(sc, p);
    PercentRoundLoop(s, sc.reg, rem, it, w, k);
    RootInA(sc, p, |sc.a|);
    assert sc.a[p..|sc.a|] == sc.a[p..];
    assert At(s, p + k + 1).(token := "%", state := BuildingPlaceholder, processed := s.processed + k) == Snap(sc, InToken);
  }

  /** The outcome of the token's round: push the entry's frames, in the state its kind renders in. */
  function TokenOutcome(sc: Scenario): RenderOutcome
  {
    var p := PushFor(sc.entry.source);
    MakeState(p.1, true).(push := Push(p.0, sc.entry))
  }

  /** The token is read to its closing `%` and resolves to the scenario's entry. */
  lemma TokenHandle(sc: Scenario, rem: nat)
    requires StageOk(sc, InToken) && Resolved(sc)
    ensures Handle(Snap(sc, InToken), sc.reg, rem) == Step(TokenOutcome(sc), TokenBase(sc), [])
  {
    var s := Snap(sc, InToken);
    var q := TokenEnd(sc);
    var k := |sc.name| + 1;
    RootFacts(sc);
    assert Top(s) == RootAt(sc, |sc.a| + 1);
    BuildTokenAfterRead(s, sc.reg, k, true);
    var s1 := TokenProgress(s, k);
    assert s1 == Snapshot(BuildingPlaceholder, [RootAt(sc, q)], Key(sc), |sc.a|, sc.closes) by {
      assert "%" + Root(sc)[|sc.a| + 1..q] == Key(sc);
    }
    assert ResolveEntry(s1, sc.reg) == Some(sc.entry);
  }

  /** The whole round of the token: nothing written, and the placeholder's start stage reached. */
  lemma TokenChunk(sc: Scenario, rem: nat)
    requires StageOk(sc, InToken) && Resolved(sc)
    ensures RenderChunk(Snap(sc, InToken), sc.reg, rem) == Step(TokenOutcome(sc), Snap(sc, Start(sc)), [])
  {
    var s := Snap(sc, InToken);
    var start := Snap(sc, Start(sc));
    TokenHandle(sc, rem);
    TokenPush(sc);
    var o := TokenOutcome(sc);
    assert PopN(TokenBase(sc), 0) == (true, TokenBase(sc));
    assert ApplyCommands(TokenBase(sc), sc.reg, o) == (true, start.(state := BuildingPlaceholder));
    assert o.(finished := o.nextState == Completed, errored := o.nextState == Errored) == o;
  }

  /** The round of the token, in the loop. */
  lemma TokenRound(sc: Scenario, rem: nat, it: nat, w: seq<char>)
    requires StageOk(sc, InToken) && Resolved(sc) && rem > 0 && it < MaxIterations
    ensures ChunkLoop(Snap(sc, InToken), sc.reg, rem, it, w) == ChunkLoop(Snap(sc, Start(sc)), sc.reg, rem, it + 1, w)
  {
    TokenChunk(sc, rem);
    SilentRound(Snap(sc, InToken), sc.reg, rem, it, w, TokenOutcome(sc), Snap(sc, Start(sc)));
  }

  /** A loop round on a data frame with bytes left: the next chunk is written and the offset moves past it. */
  lemma DataChunkLoop(s: Snapshot, reg: Registered, rem: nat, it: nat, w: seq<char>)
    requires Inv(s) && RegistryOk(reg) && reg.Some? && s.state == RenderingContext && |s.stack| > 0
    requires Top(s).DataFrame? && Top(s).offset < |Payload(Top(s).entry.source)| && rem > 0 && it < MaxIterations
    ensures var f := Top(s);
            var d := Payload(f.entry.source);
            var n := ChunkLength(|d|, f.offset, rem, ChunkCap(f.entry.source));
            0 < n && f.offset + n <= |d| &&
            ChunkLoop(s, reg, rem, it, w) ==
              ChunkLoop(WithTop(s, DataFrame(f.name, f.entry, f.offset + n)).(processed := s.processed + n), reg, rem - n, it + 1,
                        w + d[f.offset..f.offset + n])
  {
    var f := Top(s);
    var h := StreamData(s, reg, rem);
    assert Handle(s, reg, rem) == h;
    var n := |h.output|;
    var after := WithTop(s, DataFrame(f.name, f.entry, f.offset + n));
    PoppingRound(s, reg, rem, h);
    assert PopN(after, 0) == (true, after);
    assert RenderChunk(s, reg, rem) == h;
    var next, room, out := Counted(h), rem - n, w + h.output;
    GoesOn(s, reg, rem, it, w, h, next, room, out);
  }

  /**
   * A loop round on an exhausted data frame that `pops` frames (its own,
   * and its conditional's) unwind, leaving a template on top: nothing is
   * written and TEXT resumes.
   */
  lemma DataEndLoop(s: Snapshot, reg: Registered, rem: nat, it: nat, w: seq<char>, pops: nat)
    requires Inv(s) && RegistryOk(reg) && reg.Some? && s.state == RenderingContext && |s.stack| > 0
    requires Top(s).DataFrame? && Top(s).offset >= |Payload(Top(s).entry.source)| && rem > 0 && it < MaxIterations
    requires pops == (if |s.stack| >= 2 && s.stack[|s.stack| - 2].ConditionalFrame? then 2 else 1)
    requires pops < |s.stack| && s.stack[|s.stack| - 1 - pops].TemplateFrame?
    requires PopN(s, pops) == (true, s.(stack := s.stack[..|s.stack| - pops]))
    ensures ChunkLoop(s, reg, rem, it, w) ==
              ChunkLoop(s.(stack := s.stack[..|s.stack| - pops], state := Text), reg, rem, it + 1, w)
  {
    var h := StreamData(s, reg, rem);
    assert Handle(s, reg, rem) == h;
    assert h == Step(DataCompletion(s.stack), s, []);
    var o := h.outcome;
    var rest := s.stack[..|s.stack| - pops];
    assert rest[|rest| - 1].TemplateFrame?;
    assert o.nextState == Text;
    PoppingRound(s, reg, rem, h);
    SilentRound(s, reg, rem, it, w, o.(finished := false, errored := false), s.(stack := rest, state := Text));
  }

  /** The length of the next chunk of data from `o`. */
  function DataChunkLength(sc: Scenario, o: nat, rem: nat): nat
    requires ScenarioOk(sc) && IsData(sc)
  {
    ChunkLength(|DataBytes(sc)|, o, rem, ChunkCap(DataEntry(sc).source))
  }

  /** A round of data with bytes left: the next chunk. */
  lemma DataChunkRound(sc: Scenario, o: nat, rem: nat, it: nat, w: seq<char>)
    requires StageOk(sc, InData(o)) && Resolved(sc) && o < |DataBytes(sc)| && rem > 0 && it < MaxIterations
    ensures var n := DataChunkLength(sc, o, rem);
            StageOk(sc, InData(o + n)) &&
            ChunkLoop(Snap(sc, InData(o)), sc.reg, rem, it, w) ==
              ChunkLoop(Snap(sc, InData(o + n)), sc.reg, rem - n, it + 1, w + DataBytes(sc)[o..o + n])
  {
    var s := Snap(sc, InData(o));
    var f := DataFrame(DataName(sc), DataEntry(sc), o);
    assert Top(s) == f;
    DataChunkLoop(s, sc.reg, rem, it, w);
    var n := DataChunkLength(sc, o, rem);
    var g := DataFrame(DataName(sc), DataEntry(sc), o + n);
    assert WithTop(s, g).stack == [RootAt(sc, TokenEnd(sc))] + DataCarriers(sc) + [g];
  }

  /** The round after the data: its frame goes, with the conditional that delegated to it, and `b` is next. */
  lemma DataEndRound(sc: Scenario, rem: nat, it: nat, w: seq<char>)
    requires ScenarioOk(sc) && IsData(sc) && StageOk(sc, InData(|DataBytes(sc)|)) && Resolved(sc)
    requires rem > 0 && it < MaxIterations
    ensures StageOk(sc, After(0))
    ensures ChunkLoop(Snap(sc, InData(|DataBytes(sc)|)), sc.reg, rem, it, w) == ChunkLoop(Snap(sc, After(0)), sc.reg, rem, it + 1, w)
  {
    var s := Snap(sc, InData(|DataBytes(sc)|));
    var root := [RootAt(sc, TokenEnd(sc))];
    var pops := |DataCarriers(sc)| + 1;
    if ShapeOf(sc) == DataShape {
      PopOne(s);
    } else {
      PopTwo(s);
    }
    assert s.stack[..|s.stack| - pops] == root;
    DataEndLoop(s, sc.reg, rem, it, w, pops);
    assert s.(stack := root, state := Text) == Snap(sc, After(0));
  }

  /** A round in the nested template: as much as fits. */
  lemma InnerCopyRound(sc: Scenario, p: nat, rem: nat, it: nat, w: seq<char>)
    requires StageOk(sc, InTemplate(p)) && p < InnerLen(sc) && rem > 0 && it < MaxIterations
    ensures var k := Min(rem, InnerLen(sc) - p);
            StageOk(sc, InTemplate(p + k)) &&
            ChunkLoop(Snap(sc, InTemplate(p)), sc.reg, rem, it, w) ==
              ChunkLoop(Snap(sc, InTemplate(p + k)), sc.reg, rem - k, it + 1, w + InnerText(sc)[p..p + k])
  {
    var s := Snap(sc, InTemplate(p));
    var k := Min(rem, InnerLen(sc) - p);
    InnerPlain(sc);
    NoPercentWithin(InnerText(sc), 0, InnerLen(sc), p, p + k);
    assert Top(s) == InnerAt(sc, p);
    assert At(s, p + k).(processed := s.processed + k, state := Text) == Snap(sc, InTemplate(p + k));
    CopyLoop(s, sc.reg, rem, it, w, k, Snap(sc, InTemplate(p + k)), InnerText(sc)[p..p + k]);
  }

  /**
   * A loop round on an exhausted template with frames left below it and its
   * carrier: the template goes, with the carrier, nothing is written and the
   * frame below selects the state.
   */
  lemma TemplateEndLoop(s: Snapshot, reg: Registered, rem: nat, it: nat, w: seq<char>)
    requires Inv(s) && RegistryOk(reg) && (s.state == Text || s.state == RenderingContext) && TemplateOnTop(s)
    requires Top(s).position == Top(s).templateLen && rem > 0 && it < MaxIterations
    requires (if |s.stack| >= 2 && WrapsTemplate(s.stack[|s.stack| - 2]) then 2 else 1) < |s.stack|
    ensures var n := if |s.stack| >= 2 && WrapsTemplate(s.stack[|s.stack| - 2]) then 2 else 1;
            var rest := s.stack[..|s.stack| - n];
            ChunkLoop(s, reg, rem, it, w) == ChunkLoop(s.(stack := rest, state := ResumeState(rest)), reg, rem, it + 1, w)
  {
    var n := if |s.stack| >= 2 && WrapsTemplate(s.stack[|s.stack| - 2]) then 2 else 1;
    var rest := s.stack[..|s.stack| - n];
    var r := RenderChunk(s, reg, rem);
    TemplateEndRound(s, reg, rem);
    SilentRound(s, reg, rem, it, w, r.outcome, s.(stack := rest, state := ResumeState(rest)));
  }

  /** The round at the end of the nested template: it goes with its carrier, and `b` is next. */
  lemma InnerEndRound(sc: Scenario, rem: nat, it: nat, w: seq<char>)
    requires StageOk(sc, InTemplate(InnerLen(sc))) && rem > 0 && it < MaxIterations
    ensures StageOk(sc, After(0))
    ensures ChunkLoop(Snap(sc, InTemplate(InnerLen(sc))), sc.reg, rem, it, w) == ChunkLoop(Snap(sc, After(0)), sc.reg, rem, it + 1, w)
  {
    var s := Snap(sc, InTemplate(InnerLen(sc)));
    var root := [RootAt(sc, TokenEnd(sc))];
    assert WrapsTemplate(s.stack[1]);
    assert s.stack[..1] == root;
    TemplateEndLoop(s, sc.reg, rem, it, w);
    assert |InnerText(sc)[..InnerLen(sc)]| == InnerLen(sc);
    assert s.(stack := root, state := ResumeState(root)) == Snap(sc, After(0));
  }

  /** A round in `b`: as much as fits. */
  lemma AfterCopyRound(sc: Scenario, i: nat, rem: nat, it: nat, w: seq<char>)
    requires StageOk(sc, After(i)) && i < |sc.b| && rem > 0 && it < MaxIterations
    ensures var k := Min(rem, |sc.b| - i);
            StageOk(sc, After(i + k)) &&
            ChunkLoop(Snap(sc, After(i)), sc.reg, rem, it, w) ==
              ChunkLoop(Snap(sc, After(i + k)), sc.reg, rem - k, it + 1, w + sc.b[i..i + k])
  {
    var s := Snap(sc, After(i));
    var q := TokenEnd(sc);
    var k := Min(rem, |sc.b| - i);
    RootFacts(sc);
    NoPercentWithin(Root(sc), q, |Root(sc)|, q + i, q + i + k);
    assert Top(s) == RootAt(sc, q + i);
    RootInB(sc, i, i + k);
    assert At(s, q + i + k).(processed := s.processed + k, state := Text) == Snap(sc, After(i + k));
    CopyLoop(s, sc.reg, rem, it, w, k, Snap(sc, After(i + k)), sc.b[i..i + k]);
  }

  /** The round at the end of `b`: the root goes and the rendering completes. */
  lemma AfterEndRound(sc: Scenario, rem: nat, it: nat, w: seq<char>)
    requires StageOk(sc, After(|sc.b|)) && rem > 0 && it < MaxIterations
    ensures ChunkLoop(Snap(sc, After(|sc.b|)), sc.reg, rem, it, w) == ChunkLoop(Snap(sc, Done), sc.reg, rem, it + 1, w)
  {
    var s := Snap(sc, After(|sc.b|));
    RootFacts(sc);
    ExhaustedLoop(s, sc.reg, rem, it, w);
    assert s.(stack := [], state := Completed) == Snap(sc, Done);
  }

  /** A round after a conditional that rendered nothing: the start of `b`, from RENDERING_CONTEXT. */
  lemma SkipCopyRound(sc: Scenario, rem: nat, it: nat, w: seq<char>)
    requires StageOk(sc, Skipped) && 0 < |sc.b| && rem > 0 && it < MaxIterations
    ensures var k := Min(rem, |sc.b|);
            StageOk(sc, After(k)) &&
            ChunkLoop(Snap(sc, Skipped), sc.reg, rem, it, w) ==
              ChunkLoop(Snap(sc, After(k)), sc.reg, rem - k, it + 1, w + sc.b[0..k])
  {
    var s := Snap(sc, Skipped);
    var q := TokenEnd(sc);
    var k := Min(rem, |sc.b|);
    RootFacts(sc);
    NoPercentWithin(Root(sc), q, |Root(sc)|, q, q + k);
    assert Top(s) == RootAt(sc, q);
    RootInB(sc, 0, k);
    assert At(s, q + k).(processed := s.processed + k, state := Text) == Snap(sc, After(k));
    CopyLoop(s, sc.reg, rem, it, w, k, Snap(sc, After(k)), sc.b[0..k]);
  }

  /** A round after a conditional that rendered nothing, with `b` empty: the rendering completes. */
  lemma SkipEndRound(sc: Scenario, rem: nat, it: nat, w: seq<char>)
    requires StageOk(sc, Skipped) && |sc.b| == 0 && rem > 0 && it < MaxIterations
    ensures ChunkLoop(Snap(sc, Skipped), sc.reg, rem, it, w) == ChunkLoop(Snap(sc, Done), sc.reg, rem, it + 1, w)
  {
    var s := Snap(sc, Skipped);
    RootFacts(sc);
    ExhaustedLoop(s, sc.reg, rem, it, w);
    assert s.(stack := [], state := Completed) == Snap(sc, Done);
  }

  /** A loop round on an iterator with an item ready: the item's template goes on and TEXT follows. */
  lemma IteratorItemLoop(s: Snapshot, reg: Registered, rem: nat, it: nat, w: seq<char>)
    requires Inv(s) && RegistryOk(reg) && s.state == RenderingContext && 0 < |s.stack| < MaxRenderingDepth
    requires var f := Top(s);
             f.IteratorFrame? && f.iteratorDescriptor.Some? && f.iteratorDescriptor.value.next.Callback? &&
             var a := NextStep(f.iteratorDescriptor.value.next.result, f.cursor);
             a.ItemReady? && a.item.templateData.Some?
    requires rem > 0 && it < MaxIterations
    ensures var f := Top(s);
            var item := NextStep(f.iteratorDescriptor.value.next.result, f.cursor).item;
            Inv(s.(stack := WithTop(s, Advanced(f)).stack + [ItemFrame(f.name, item)], state := Text)) &&
            ChunkLoop(s, reg, rem, it, w) ==
              ChunkLoop(s.(stack := WithTop(s, Advanced(f)).stack + [ItemFrame(f.name, item)], state := Text), reg, rem, it + 1, w)
  {
    var f := Top(s);
    var item := NextStep(f.iteratorDescriptor.value.next.result, f.cursor).item;
    var r := RenderChunk(s, reg, rem);
    IteratorItemRound(s, reg, rem);
    SilentRound(s, reg, rem, it, w, r.outcome, s.(stack := WithTop(s, Advanced(f)).stack + [ItemFrame(f.name, item)], state := Text));
  }

  /** A loop round on an iterator whose stream is over: it closes its handle if open and goes, leaving frames below. */
  lemma IteratorCompleteLoop(s: Snapshot, reg: Registered, rem: nat, it: nat, w: seq<char>)
    requires Inv(s) && RegistryOk(reg) && s.state == RenderingContext && |s.stack| > 1
    requires var f := Top(s);
             f.IteratorFrame? && f.iteratorDescriptor.Some? && f.iteratorDescriptor.value.next.Callback? &&
             NextStep(f.iteratorDescriptor.value.next.result, f.cursor).Complete?
    requires rem > 0 && it < MaxIterations
    ensures var f := Top(s);
            var d := f.iteratorDescriptor.value;
            var rest := s.stack[..|s.stack| - 1];
            ChunkLoop(s, reg, rem, it, w) ==
              ChunkLoop(s.(stack := rest, state := ResumeState(rest),
                           closes := s.closes + if Opened(f, d).handleOpen && d.hasClose then 1 else 0),
                        reg, rem, it + 1, w)
  {
    var f := Top(s);
    var d := f.iteratorDescriptor.value;
    var rest := s.stack[..|s.stack| - 1];
    var r := RenderChunk(s, reg, rem);
    IteratorCompleteRound(s, reg, rem);
    SilentRound(s, reg, rem, it, w, r.outcome,
                s.(stack := rest, state := ResumeState(rest),
                   closes := s.closes + if Opened(f, d).handleOpen && d.hasClose then 1 else 0));
  }

  /** `next` moves the iterator frame one answer on. */
  lemma AdvancedFrame(sc: Scenario, c: nat)
    requires ScenarioOk(sc) && ShapeOf(sc) == IteratorShape
    ensures IterFrame(sc, c).iteratorDescriptor == Some(Desc(sc)) && IterFrame(sc, c).name == Key(sc)
    ensures Advanced(IterFrame(sc, c)) == IterFrame(sc, c + 1)
    ensures Opened(IterFrame(sc, c), Desc(sc)).handleOpen == Opened(FreshFrame(sc), Desc(sc)).handleOpen
  {
  }

  /** The lengths of the items add up to what they render. */
  lemma {:induction false} ItemsCount(sc: Scenario, c: nat)
    requires ScenarioOk(sc) && ShapeOf(sc) == IteratorShape && c <= |Items(sc)|
    ensures ItemsDone(sc, c) + |ItemsOut(sc, c)| == ItemsDone(sc, |Items(sc)|)
    decreases |Items(sc)| - c
  {
    if c < |Items(sc)| {
      ItemsCount(sc, c + 1);
      ItemIsPlain(sc, c);
    }
  }

  /** The round on the iterator with an item left: `next` answers it and its template goes on. */
  lemma ItemStartRound(sc: Scenario, c: nat, rem: nat, it: nat, w: seq<char>)
    requires StageOk(sc, IterAt(c)) && c < |Items(sc)| && rem > 0 && it < MaxIterations
    ensures StageOk(sc, IterItem(c, 0))
    ensures ChunkLoop(Snap(sc, IterAt(c)), sc.reg, rem, it, w) == ChunkLoop(Snap(sc, IterItem(c, 0)), sc.reg, rem, it + 1, w)
  {
    var s := Snap(sc, IterAt(c));
    IteratorFacts(sc);
    AdvancedFrame(sc, c);
    var f := IterFrame(sc, c);
    assert Top(s) == f;
    var item := Items(sc)[c];
    assert NextStep(Desc(sc).next.result, c).item == item;
    IteratorItemLoop(s, sc.reg, rem, it, w);
    assert ItemFrame(Key(sc), item).(position := 0) == ItemFrame(Key(sc), item);
    assert WithTop(s, Advanced(f)).stack + [ItemFrame(f.name, item)] ==
           [RootAt(sc, TokenEnd(sc)), IterFrame(sc, c + 1), ItemFrame(Key(sc), item)];
    assert s.(stack := WithTop(s, Advanced(f)).stack + [ItemFrame(f.name, item)], state := Text) == Snap(sc, IterItem(c, 0));
  }

  /** The round on the iterator once its items are done: it closes its handle if open, goes, and `b` is next. */
  lemma IterEndRound(sc: Scenario, rem: nat, it: nat, w: seq<char>)
    requires ScenarioOk(sc) && ShapeOf(sc) == IteratorShape && StageOk(sc, IterAt(|Items(sc)|))
    requires rem > 0 && it < MaxIterations
    ensures StageOk(sc, After(0))
    ensures ChunkLoop(Snap(sc, IterAt(|Items(sc)|)), sc.reg, rem, it, w) == ChunkLoop(Snap(sc, After(0)), sc.reg, rem, it + 1, w)
  {
    var n := |Items(sc)|;
    var s := Snap(sc, IterAt(n));
    IteratorFacts(sc);
    AdvancedFrame(sc, n);
    var f := IterFrame(sc, n);
    assert Top(s) == f;
    var root := [RootAt(sc, TokenEnd(sc))];
    assert s.stack[..1] == root;
    IteratorCompleteLoop(s, sc.reg, rem, it, w);
    ItemsCount(sc, 0);
    assert s.(stack := root, state := ResumeState(root),
              closes := s.closes + if Opened(f, Desc(sc)).handleOpen && Desc(sc).hasClose then 1 else 0) == Snap(sc, After(0));
  }

  /** A round in an item's template: as much as fits. */
  lemma ItemCopyRound(sc: Scenario, c: nat, p: nat, rem: nat, it: nat, w: seq<char>)
    requires StageOk(sc, IterItem(c, p)) && p < ItemLength(Items(sc)[c]) && rem > 0 && it < MaxIterations
    ensures var k := Min(rem, ItemLength(Items(sc)[c]) - p);
            PlainItem(Items(sc)[c]) && StageOk(sc, IterItem(c, p + k)) &&
            ChunkLoop(Snap(sc, IterItem(c, p)), sc.reg, rem, it, w) ==
              ChunkLoop(Snap(sc, IterItem(c, p + k)), sc.reg, rem - k, it + 1, w + ItemText(Items(sc)[c])[p..p + k])
  {
    var s := Snap(sc, IterItem(c, p));
    var item := Items(sc)[c];
    var len := ItemLength(item);
    var k := Min(rem, len - p);
    ItemIsPlain(sc, c);
    NoPercentWithin(ItemText(item), 0, len, p, p + k);
    assert Top(s) == ItemFrame(Key(sc), item).(position := p);
    assert At(s, p + k).(processed := s.processed + k, state := Text) == Snap(sc, IterItem(c, p + k));
    CopyLoop(s, sc.reg, rem, it, w, k, Snap(sc, IterItem(c, p + k)), ItemText(item)[p..p + k]);
  }

  /** The round at the end of an item's template: it goes, and the iterator is asked again. */
  lemma ItemEndRound(sc: Scenario, c: nat, rem: nat, it: nat, w: seq<char>)
    requires StageOk(sc, IterItem(c, 0)) && rem > 0 && it < MaxIterations
    ensures StageOk(sc, IterItem(c, ItemLength(Items(sc)[c]))) && StageOk(sc, IterAt(c + 1))
    ensures ChunkLoop(Snap(sc, IterItem(c, ItemLength(Items(sc)[c]))), sc.reg, rem, it, w) ==
              ChunkLoop(Snap(sc, IterAt(c + 1)), sc.reg, rem, it + 1, w)
  {
    var s := Snap(sc, IterItem(c, ItemLength(Items(sc)[c])));
    IteratorFacts(sc);
    var rest := [RootAt(sc, TokenEnd(sc)), IterFrame(sc, c + 1)];
    assert !WrapsTemplate(s.stack[1]);
    assert s.stack[..2] == rest;
    TemplateEndLoop(s, sc.reg, rem, it, w);
    assert s.(stack := rest, state := ResumeState(rest)) == Snap(sc, IterAt(c + 1));
  }

  // ---------------------------------------------------------------------------
  // The loop and the whole rendering

  /** The loop from stage `st`, after one round: the loop from the stage `Next` names, with its bytes written. */
  predicate RoundIsNext(sc: Scenario, st: Stage, rem: nat, it: nat, w: seq<char>)
    requires StageOk(sc, st) && rem > 0 && !st.Done?
  {
    var n := Next(sc, st, rem);
    ChunkLoop(Snap(sc, st), sc.reg, rem, it, w) == ChunkLoop(Snap(sc, n.0), sc.reg, rem - |n.1|, it + 1, w + n.1)
  }

  lemma BeforeStage(sc: Scenario, p: nat, rem: nat, it: nat, w: seq<char>)
    requires StageOk(sc, Before(p)) && rem > 0 && it < MaxIterations
    ensures RoundIsNext(sc, Before(p), rem, it, w)
  {
    if |sc.a| - p < rem {
      BeforePercentRound(sc, p, rem, it, w);
    } else {
      BeforeCopyRound(sc, p, rem, it, w);
    }
  }

  lemma TokenStage(sc: Scenario, rem: nat, it: nat, w: seq<char>)
    requires StageOk(sc, InToken) && Resolved(sc) && rem > 0 && it < MaxIterations
    ensures RoundIsNext(sc, InToken, rem, it, w)
  {
    TokenRound(sc, rem, it, w);
    assert w + [] == w;
  }

  lemma DataStage(sc: Scenario, o: nat, rem: nat, it: nat, w: seq<char>)
    requires StageOk(sc, InData(o)) && Resolved(sc) && rem > 0 && it < MaxIterations
    ensures RoundIsNext(sc, InData(o), rem, it, w)
  {
    if o < |DataBytes(sc)| {
      DataChunkRound(sc, o, rem, it, w);
    } else {
      DataEndRound(sc, rem, it, w);
      assert w + [] == w;
    }
  }

  lemma TemplateStage(sc: Scenario, p: nat, rem: nat, it: nat, w: seq<char>)
    requires StageOk(sc, InTemplate(p)) && rem > 0 && it < MaxIterations
    ensures RoundIsNext(sc, InTemplate(p), rem, it, w)
  {
    if p < InnerLen(sc) {
      InnerCopyRound(sc, p, rem, it, w);
    } else {
      InnerEndRound(sc, rem, it, w);
      assert w + [] == w;
    }
  }

  lemma SkipStage(sc: Scenario, rem: nat, it: nat, w: seq<char>)
    requires StageOk(sc, Skipped) && rem > 0 && it < MaxIterations
    ensures RoundIsNext(sc, Skipped, rem, it, w)
  {
    if 0 < |sc.b| {
      SkipCopyRound(sc, rem, it, w);
    } else {
      SkipEndRound(sc, rem, it, w);
      assert w + [] == w;
    }
  }

  lemma IterStage(sc: Scenario, c: nat, rem: nat, it: nat, w: seq<char>)
    requires StageOk(sc, IterAt(c)) && rem > 0 && it < MaxIterations
    ensures RoundIsNext(sc, IterAt(c), rem, it, w)
  {
    if c < |Items(sc)| {
      ItemStartRound(sc, c, rem, it, w);
    } else {
      IterEndRound(sc, rem, it, w);
    }
    assert w + [] == w;
  }

  lemma ItemStage(sc: Scenario, c: nat, p: nat, rem: nat, it: nat, w: seq<char>)
    requires StageOk(sc, IterItem(c, p)) && rem > 0 && it < MaxIterations
    ensures RoundIsNext(sc, IterItem(c, p), rem, it, w)
  {
    ItemIsPlain(sc, c);
    if p < ItemLength(Items(sc)[c]) {
      ItemCopyRound(sc, c, p, rem, it, w);
    } else {
      ItemEndRound(sc, c, rem, it, w);
      assert w + [] == w;
    }
  }

  lemma AfterStage(sc: Scenario, i: nat, rem: nat, it: nat, w: seq<char>)
    requires StageOk(sc, After(i)) && rem > 0 && it < MaxIterations
    ensures RoundIsNext(sc, After(i), rem, it, w)
  {
    if i < |sc.b| {
      AfterCopyRound(sc, i, rem, it, w);
    } else {
      AfterEndRound(sc, rem, it, w);
      assert w + [] == w;
    }
  }

  /** Every round of the loop is the round `Next` describes. */
  lemma RoundStage(sc: Scenario, st: Stage, rem: nat, it: nat, w: seq<char>)
    requires StageOk(sc, st) && Resolved(sc) && rem > 0 && !st.Done? && it < MaxIterations
    ensures RoundIsNext(sc, st, rem, it, w)
  {
    match st
    case Before(p) => BeforeStage(sc, p, rem, it, w);
    case InToken => TokenStage(sc, rem, it, w);
    case InData(o) => DataStage(sc, o, rem, it, w);
    case InTemplate(p) => TemplateStage(sc, p, rem, it, w);
    case Skipped => SkipStage(sc, rem, it, w);
    case IterAt(c) => IterStage(sc, c, rem, it, w);
    case IterItem(c, p) => ItemStage(sc, c, p, rem, it, w);
    case After(i) => AfterStage(sc, i, rem, it, w);
  }

  /**
   * The loop of one `renderNextChunk` call from a stage stops at another
   * stage: what it writes followed by what is to come from there is what
   * was to come, and a loop that runs a round gets closer to the end.
   */
  lemma {:induction false} LoopReachesStage(sc: Scenario, st: Stage, rem: nat, it: nat, w: seq<char>)
      returns (st': Stage, out: seq<char>)
    requires StageOk(sc, st) && Resolved(sc) && it <= MaxIterations
    ensures StageOk(sc, st')
    ensures var l := ChunkLoop(Snap(sc, st), sc.reg, rem, it, w);
            l == (Snap(sc, st'), w + out, l.2)
    ensures out + Future(sc, st') == Future(sc, st)
    ensures Measure(sc, st') <= Measure(sc, st)
    ensures rem > 0 && !st.Done? && it < MaxIterations ==> Measure(sc, st') < Measure(sc, st)
    decreases MaxIterations - it
  {
    if rem == 0 || st.Done? || it >= MaxIterations {
      assert w + [] == w;
      st', out := st, [];
    } else {
      var n := Next(sc, st, rem);
      RoundStage(sc, st, rem, it, w);
      var rest;
      st', rest := LoopReachesStage(sc, n.0, rem - |n.1|, it + 1, w + n.1);
      out := n.1 + rest;
      Assoc(w, n.1, rest);
      Assoc(n.1, rest, Future(sc, st'));
    }
  }

  lemma Assoc(x: seq<char>, y: seq<char>, z: seq<char>)
    ensures x + y + z == x + (y + z)
  {
  }

  /**
   * Rendering from a stage, in buffers of any size, with enough calls:
   * the rendering completes and writes exactly what was still to come.
   */
  lemma RendersFrom(sc: Scenario, st: Stage, maxLen: nat, fuel: nat)
    requires StageOk(sc, st) && Resolved(sc) && maxLen > 0 && fuel > Measure(sc, st)
    ensures RenderAll(Snap(sc, st), sc.reg, maxLen, fuel) == (Snap(sc, Done), Future(sc, st))
  {
    var trace, outs := RunFrom(sc, st, maxLen);
    RunRenders(trace, outs, sc.reg, maxLen, fuel);
  }

  /** The `renderNextChunk` calls from a stage form a run to the end, of at most `Measure` calls. */
  lemma {:induction false} RunFrom(sc: Scenario, st: Stage, maxLen: nat) returns (trace: seq<Snapshot>, outs: seq<seq<char>>)
    requires StageOk(sc, st) && Resolved(sc) && maxLen > 0
    ensures IsRun(trace, outs, sc.reg, maxLen) && |outs| <= Measure(sc, st)
    ensures trace[0] == Snap(sc, st) && trace[|outs|] == Snap(sc, Done) && Joined(outs) == Future(sc, st)
    decreases Measure(sc, st)
  {
    if st.Done? {
      trace, outs := [Snap(sc, st)], [];
    } else {
      var st', out := NextChunkReaches(sc, st, maxLen);
      var t, o := RunFrom(sc, st', maxLen);
      RunCons(Snap(sc, st), out, t, o, sc.reg, maxLen);
      trace, outs := [Snap(sc, st)] + t, [out] + o;
      assert outs[1..] == o;
    }
  }

  /** One `renderNextChunk` call from a stage that is not the end reaches a later stage. */
  lemma NextChunkReaches(sc: Scenario, st: Stage, maxLen: nat) returns (st': Stage, out: seq<char>)
    requires StageOk(sc, st) && Resolved(sc) && maxLen > 0 && !st.Done?
    ensures StageOk(sc, st') && NextChunk(Snap(sc, st), sc.reg, maxLen) == (Snap(sc, st'), out)
    ensures out + Future(sc, st') == Future(sc, st) && Measure(sc, st') < Measure(sc, st)
  {
    var s := Snap(sc, st);
    st', out := LoopReachesStage(sc, st, maxLen, 0, []);
    NextChunkIsLoop(s, sc.reg, maxLen, ChunkLoop(s, sc.reg, maxLen, 0, []));
    assert [] + out == out;
  }

  /**
   * The template `a%name%b` whose placeholder is registered renders, in
   * buffers of any size, as `a`, then what the placeholder's entry renders
   * as, then `b`; the context ends in COMPLETE with those bytes counted
   * and with the close hook an opened iterator handle calls.
   */
  lemma PlaceholderRenders(sc: Scenario, maxLen: nat, fuel: nat)
    requires ScenarioOk(sc) && Resolved(sc) && maxLen > 0 && fuel > Measure(sc, Before(0))
    ensures RenderAll(Initialized(Root(sc), sc.isProgmem, sc.closes), sc.reg, maxLen, fuel) ==
              (Snapshot(Completed, [], [], |sc.a| + |Rendered(sc)| + |sc.b|, sc.closes + CloseCount(sc)),
               sc.a + Rendered(sc) + sc.b)
  {
    assert Snap(sc, Before(0)) == Initialized(Root(sc), sc.isProgmem, sc.closes);
    RendersFrom(sc, Before(0), maxLen, fuel);
    assert sc.a[0..] == sc.a;
  }

  /** The same rendering in buffers of any two sizes: the bytes and the final context agree. */
  lemma PlaceholderRenderingIgnoresBufferSize(sc: Scenario, m1: nat, m2: nat, fuel: nat)
    requires ScenarioOk(sc) && Resolved(sc) && m1 > 0 && m2 > 0 && fuel > Measure(sc, Before(0))
    ensures var s := Initialized(Root(sc), sc.isProgmem, sc.closes);
            RenderAll(s, sc.reg, m1, fuel) == RenderAll(s, sc.reg, m2, fuel)
  {
    PlaceholderRenders(sc, m1, fuel);
    PlaceholderRenders(sc, m2, fuel);
  }

  // ---------------------------------------------------------------------------
  // Each kind of entry, end to end

  /** `a`, `name` and `b` have no `%`, and `%name%` fits the token accumulator. */
  predicate PlainParts(a: CString, name: CString, b: CString)
  {
    '%' !in a && '%' !in name && '%' !in b && |name| + 2 <= MaxTokenLength
  }

  /** The scenario of `a%name%b` where `name` resolves to `e` among `entries`. */
  lemma ScenarioOf(a: CString, name: CString, b: CString, isProgmem: bool, closes: nat,
                   entries: seq<PlaceholderEntry>, e: PlaceholderEntry, delegate: Option<PlaceholderEntry>)
    returns (sc: Scenario)
    requires PlainParts(a, name, b) && WellFormedEntries(entries)
    requires Lookup(entries, Some(['%'] + name + ['%'])) == Some(e)
    ensures sc == Scenario(a, name, b, isProgmem, closes, Some(entries), e, delegate)
    ensures Root(sc) == OneToken(a, name, b) && Key(sc) == ['%'] + name + ['%']
    ensures NoPercentIn(a, 0, |a|) && NoPercentIn(name, 0, |name|) && NoPercentIn(b, 0, |b|)
    ensures RegistryOk(sc.reg) && WellFormedEntry(e) && e.name == Key(sc)
  {
    sc := Scenario(a, name, b, isProgmem, closes, Some(entries), e, delegate);
    NoPercentOf(a);
    NoPercentOf(name);
    NoPercentOf(b);
    LookupWellFormed(entries, Some(Key(sc)));
    var i := FindIndex(entries, Key(sc));
    assert i.Some? && entries[i.value] == e;
  }

  /**
   * A static or live data placeholder: `a%name%b` renders as `a`, the data
   * and `b`, in buffers of any size, and the context completes.
   */
  lemma DataPlaceholderRenders(a: CString, name: CString, b: CString, isProgmem: bool, closes: nat,
                               entries: seq<PlaceholderEntry>, e: PlaceholderEntry, maxLen: nat, fuel: nat)
    requires PlainParts(a, name, b) && WellFormedEntries(entries)
    requires Lookup(entries, Some(['%'] + name + ['%'])) == Some(e) && (e.source.ProgmemData? || e.source.RamData?)
    requires maxLen > 0 && fuel > |a| + |Payload(e.source)| + |b| + 4
    ensures var d := Payload(e.source);
            RenderAll(Initialized(OneToken(a, name, b), isProgmem, closes), Some(entries), maxLen, fuel) ==
              (Snapshot(Completed, [], [], |a| + |d| + |b|, closes), a + d + b)
  {
    var sc := ScenarioOf(a, name, b, isProgmem, closes, entries, e, None);
    assert ScenarioOk(sc) && Resolved(sc) && ShapeOf(sc) == DataShape;
    assert Rendered(sc) == Payload(e.source) && CloseCount(sc) == 0;
    PlaceholderRenders(sc, maxLen, fuel);
  }

  /**
   * A static nested template without placeholders of its own: `a%name%b`
   * renders as `a`, the template's text and `b`.
   */
  lemma TemplatePlaceholderRenders(a: CString, name: CString, b: CString, isProgmem: bool, closes: nat,
                                   entries: seq<PlaceholderEntry>, e: PlaceholderEntry, maxLen: nat, fuel: nat)
    requires PlainParts(a, name, b) && WellFormedEntries(entries)
    requires Lookup(entries, Some(['%'] + name + ['%'])) == Some(e) && e.source.ProgmemTemplate?
    requires '%' !in Payload(e.source)
    requires maxLen > 0 && fuel > |a| + |Payload(e.source)| + |b| + 4
    ensures var t := Payload(e.source);
            RenderAll(Initialized(OneToken(a, name, b), isProgmem, closes), Some(entries), maxLen, fuel) ==
              (Snapshot(Completed, [], [], |a| + |t| + |b|, closes), a + t + b)
  {
    var sc := ScenarioOf(a, name, b, isProgmem, closes, entries, e, None);
    var t := Payload(e.source);
    NoPercentOf(t);
    assert ScenarioOk(sc) && Resolved(sc) && ShapeOf(sc) == TemplateShape;
    assert InnerText(sc) == t && InnerLen(sc) == |t| && t[..|t|] == t;
    assert Rendered(sc) == t && CloseCount(sc) == 0;
    PlaceholderRenders(sc, maxLen, fuel);
  }

  /**
   * A computed template without placeholders of its own: `a%name%b`
   * renders as `a`, the first `getLength` bytes of what the getter returns
   * (all of it without `getLength`) and `b`.
   */
  lemma DynamicTemplatePlaceholderRenders(a: CString, name: CString, b: CString, isProgmem: bool, closes: nat,
                                          entries: seq<PlaceholderEntry>, e: PlaceholderEntry,
                                          d: DynamicTemplateDescriptor, maxLen: nat, fuel: nat)
    requires PlainParts(a, name, b) && WellFormedEntries(entries)
    requires Lookup(entries, Some(['%'] + name + ['%'])) == Some(e) && e.source == DynamicTemplate(Some(d))
    requires d.getter.Callback? && DynamicLength(d) <= |DynamicText(d)|
    requires '%' !in DynamicText(d)[..DynamicLength(d)]
    requires maxLen > 0 && fuel > |a| + DynamicLength(d) + |b| + 4
    ensures var t := DynamicText(d)[..DynamicLength(d)];
            RenderAll(Initialized(OneToken(a, name, b), isProgmem, closes), Some(entries), maxLen, fuel) ==
              (Snapshot(Completed, [], [], |a| + |t| + |b|, closes), a + t + b)
  {
    var sc := ScenarioOf(a, name, b, isProgmem, closes, entries, e, None);
    var t := DynamicText(d)[..DynamicLength(d)];
    NoPercentOf(t);
    assert NoPercentIn(DynamicText(d), 0, DynamicLength(d)) by {
      forall i | 0 <= i < DynamicLength(d) ensures DynamicText(d)[i] != '%' {
        assert t[i] == DynamicText(d)[i];
      }
    }
    assert ScenarioOk(sc) && Resolved(sc) && ShapeOf(sc) == TemplateShape;
    assert Rendered(sc) == t && CloseCount(sc) == 0;
    PlaceholderRenders(sc, maxLen, fuel);
  }

  /**
   * A conditional whose branch names a data placeholder: `a%name%b`
   * renders as `a`, that placeholder's data and `b`.
   */
  lemma ConditionalPlaceholderRenders(a: CString, name: CString, b: CString, isProgmem: bool, closes: nat,
                                      entries: seq<PlaceholderEntry>, e: PlaceholderEntry, c: ConditionalDescriptor,
                                      target: CString, e2: PlaceholderEntry, maxLen: nat, fuel: nat)
    requires PlainParts(a, name, b) && WellFormedEntries(entries)
    requires Lookup(entries, Some(['%'] + name + ['%'])) == Some(e) && e.source == Conditional(Some(c))
    requires c.evaluate.Callback? && BranchTarget(c) == Some(target)
    requires Lookup(entries, Some(target)) == Some(e2) && (e2.source.ProgmemData? || e2.source.RamData?)
    requires maxLen > 0 && fuel > |a| + |Payload(e2.source)| + |b| + 4
    ensures var d := Payload(e2.source);
            RenderAll(Initialized(OneToken(a, name, b), isProgmem, closes), Some(entries), maxLen, fuel) ==
              (Snapshot(Completed, [], [], |a| + |d| + |b|, closes), a + d + b)
  {
    var sc := ScenarioOf(a, name, b, isProgmem, closes, entries, e, Some(e2));
    assert ScenarioOk(sc) && Resolved(sc) && ShapeOf(sc) == ConditionalDataShape;
    assert Rendered(sc) == Payload(e2.source) && CloseCount(sc) == 0;
    PlaceholderRenders(sc, maxLen, fuel);
  }

  /**
   * A conditional that skips, or whose branch names no registered
   * placeholder: `a%name%b` renders as `a` then `b`.
   */
  lemma SkippedConditionalRenders(a: CString, name: CString, b: CString, isProgmem: bool, closes: nat,
                                  entries: seq<PlaceholderEntry>, e: PlaceholderEntry, c: ConditionalDescriptor,
                                  maxLen: nat, fuel: nat)
    requires PlainParts(a, name, b) && WellFormedEntries(entries)
    requires Lookup(entries, Some(['%'] + name + ['%'])) == Some(e) && e.source == Conditional(Some(c))
    requires c.evaluate.Callback? && Lookup(entries, BranchTarget(c)).None?
    requires maxLen > 0 && fuel > |a| + |b| + 4
    ensures RenderAll(Initialized(OneToken(a, name, b), isProgmem, closes), Some(entries), maxLen, fuel) ==
              (Snapshot(Completed, [], [], |a| + |b|, closes), a + b)
  {
    var sc := ScenarioOf(a, name, b, isProgmem, closes, entries, e, None);
    assert ScenarioOk(sc) && Resolved(sc) && ShapeOf(sc) == SkipShape;
    assert Rendered(sc) == [] && CloseCount(sc) == 0;
    PlaceholderRenders(sc, maxLen, fuel);
    assert a + [] + b == a + b;
  }

  /** The bytes of plain items, one after the other. */
  function ItemsText(items: seq<IteratorItem>): seq<char>
    requires forall i :: 0 <= i < |items| ==> PlainItem(items[i])
  {
    if items == [] then [] else assert PlainItem(items[0]); ItemOut(items[0]) + ItemsText(items[1..])
  }

  /** The rest of an iterator's output, and the rounds it takes. */
  lemma {:induction false} ItemsFrom(sc: Scenario, c: nat)
    requires ScenarioOk(sc) && ShapeOf(sc) == IteratorShape && c <= |Items(sc)|
    ensures ItemsOut(sc, c) == ItemsText(Items(sc)[c..])
    ensures IterMeasure(sc, c) == |ItemsText(Items(sc)[c..])| + 2 * (|Items(sc)| - c) + |sc.b| + 2
    decreases |Items(sc)| - c
  {
    var items := Items(sc);
    if c < |items| {
      ItemsFrom(sc, c + 1);
      assert items[c..][1..] == items[c + 1..];
      assert items[c..][0] == items[c];
    }
  }

  /**
   * An iterator whose `next` yields plain items and then COMPLETE:
   * `a%name%b` renders as `a`, the items one after the other and `b`; the
   * close hook runs once when `open` returned a handle and a close hook is set.
   */
  lemma IteratorPlaceholderRenders(a: CString, name: CString, b: CString, isProgmem: bool, closes: nat,
                                   entries: seq<PlaceholderEntry>, e: PlaceholderEntry, d: IteratorDescriptor,
                                   items: seq<IteratorItem>, maxLen: nat, fuel: nat)
    requires PlainParts(a, name, b) && WellFormedEntries(entries)
    requires Lookup(entries, Some(['%'] + name + ['%'])) == Some(e) && e.source == Iterator(Some(d))
    requires d.next == Callback(ItemStream(items, false))
    requires forall i :: 0 <= i < |items| ==> PlainItem(items[i])
    requires maxLen > 0 && fuel > |a| + |ItemsText(items)| + 2 * |items| + |b| + 4
    ensures var out := ItemsText(items);
            var shut := if d.hasClose && d.open == Callback(true) then 1 else 0;
            RenderAll(Initialized(OneToken(a, name, b), isProgmem, closes), Some(entries), maxLen, fuel) ==
              (Snapshot(Completed, [], [], |a| + |out| + |b|, closes + shut), a + out + b)
  {
    var sc := ScenarioOf(a, name, b, isProgmem, closes, entries, e, None);
    assert ScenarioOk(sc) && Resolved(sc) && ShapeOf(sc) == IteratorShape && Items(sc) == items;
    ItemsFrom(sc, 0);
    assert items[0..] == items;
    assert Rendered(sc) == ItemsText(items);
    assert CloseCount(sc) == if d.hasClose && d.open == Callback(true) then 1 else 0;
    PlaceholderRenders(sc, maxLen, fuel);
  }
}
