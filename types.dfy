/**
 * Shared data model of the streaming `%NAME%` template engine: the
 * placeholder kinds and their descriptors, the iterator item view, the
 * frames of the rendering stack and the renderer's states, together with
 * the size constants the engine is built with.
 *
 * User callbacks (getters, evaluators, iterator hooks) are replaced by the
 * value they produce: a callback is either absent (a null function
 * pointer) or present together with the result it returns.
 */
module TemplateTypes {

  datatype Option<T> = None | Some(value: T)

  /** A NUL-terminated C string, as seen through `strlen`: its bytes without the terminator. */
  type CString = s: seq<char> | '\0' !in s

  /** Size of the name buffer of a registry entry and of the token accumulator. */
  const PlaceholderNameSize: nat := 24
  /** Longest name (terminator included) that registration accepts. */
  const MaxPlaceholderNameSize: nat := 24
  /** Default capacity of a registry. */
  const DefaultMaxPlaceholders: nat := 16
  /** Largest copy made from static (flash) data per call. */
  const ProgmemChunkSize: nat := 512
  /** Largest copy made from a live-data getter per call. */
  const RamChunkSize: nat := 128
  /** Depth of the rendering stack. */
  const MaxRenderingDepth: nat := 16
  /** Size of the shared staging buffer for template bytes. */
  const BufferSize: nat := 512
  /** Bound on the steps one call of the chunk loop performs. */
  const MaxIterations: nat := 50

  /** A possibly-null callback together with the value it returns when called. */
  datatype Callback<T> = NullCallback | Callback(result: T)

  datatype BranchResult = Skip | TrueBranch | FalseBranch

  /**
   * A template computed at render time. `getter` returns the template
   * text (null is read as the empty template); `getLength`, when present,
   * reports the number of template bytes to render.
   */
  datatype DynamicTemplateDescriptor =
    DynamicTemplateDescriptor(getter: Callback<Option<CString>>, getLength: Callback<nat>)

  /** A conditional: the evaluator's branch and the placeholder each branch delegates to. */
  datatype ConditionalDescriptor =
    ConditionalDescriptor(evaluate: Callback<BranchResult>,
                          truePlaceholder: Option<CString>,
                          falsePlaceholder: Option<CString>)

  /**
   * An iterator. `open`, when present, returns whether the handle it
   * creates is non-null; without it the handle is the user data pointer,
   * non-null when `userDataNonNull`. `next` yields the items in order and
   * then either COMPLETE or, when `failsAtEnd`, ERROR.
   */
  datatype IteratorDescriptor =
    IteratorDescriptor(open: Callback<bool>,
                       next: Callback<ItemStream>,
                       hasClose: bool,
                       userDataNonNull: bool)

  datatype ItemStream = ItemStream(items: seq<IteratorItem>, failsAtEnd: bool)

  /** What one ITEM_READY step hands over: a template and the overrides visible inside it. */
  datatype IteratorItem =
    IteratorItem(templateData: Option<CString>,
                 templateLength: nat,
                 templateIsProgmem: bool,
                 placeholders: seq<PlaceholderEntry>)

  datatype IteratorStepResult = ItemReady(item: IteratorItem) | Complete | Failed

  /** The answer of `next` when it is called for the `cursor`-th time (counting from 0). */
  function NextStep(stream: ItemStream, cursor: nat): (r: IteratorStepResult)
    ensures r.ItemReady? <==> cursor < |stream.items|
    ensures r.ItemReady? ==> r.item == stream.items[cursor]
    ensures r.Failed? <==> cursor >= |stream.items| && stream.failsAtEnd
  {
    if cursor < |stream.items| then ItemReady(stream.items[cursor])
    else if stream.failsAtEnd then Failed
    else Complete
  }

  datatype PlaceholderSource =
    | ProgmemData(data: Option<CString>)
    | ProgmemTemplate(template: Option<CString>)
    | RamData(getter: Callback<Option<CString>>)
    | DynamicTemplate(dynamicDescriptor: Option<DynamicTemplateDescriptor>)
    | Conditional(conditionalDescriptor: Option<ConditionalDescriptor>)
    | Iterator(descriptor: Option<IteratorDescriptor>)

  datatype PlaceholderEntry = PlaceholderEntry(name: CString, source: PlaceholderSource)

  /** A zero-filled entry slot: empty name, kind 0 (static data), null data. */
  const EmptyEntry: PlaceholderEntry := PlaceholderEntry("", ProgmemData(None))

  /** The text a dynamic template's getter produces, null read as empty. */
  function DynamicText(d: DynamicTemplateDescriptor): CString
  {
    if d.getter.Callback? && d.getter.result.Some? then d.getter.result.value else ""
  }

  /** The number of template bytes rendered for a dynamic template. */
  function DynamicLength(d: DynamicTemplateDescriptor): nat
  {
    if d.getLength.Callback? then d.getLength.result else |DynamicText(d)|
  }

  /** The template of an iterator item (its text when present). */
  function ItemText(it: IteratorItem): CString
  {
    if it.templateData.Some? then it.templateData.value else ""
  }

  /** Bytes rendered for an item: its explicit length, or `strlen` when that is 0. */
  function ItemLength(it: IteratorItem): nat
  {
    if it.templateLength == 0 then |ItemText(it)| else it.templateLength
  }

  /**
   * Well-formed entries: every length a callback reports stays within the
   * bytes it points at, all the way down through iterator items and their
   * override entries. A length beyond the text would make the engine read
   * out of bounds.
   */
  predicate WellFormedEntry(e: PlaceholderEntry)
    decreases e, 3
  {
    WellFormedSource(e.source)
  }

  predicate WellFormedSource(s: PlaceholderSource)
    decreases s, 2
  {
    match s
    case DynamicTemplate(d) => d.Some? ==> DynamicLength(d.value) <= |DynamicText(d.value)|
    case Iterator(d) => d.Some? ==> WellFormedIterator(d.value)
    case _ => true
  }

  predicate WellFormedIterator(d: IteratorDescriptor)
    decreases d, 1
  {
    d.next.Callback? ==>
      forall i :: 0 <= i < |d.next.result.items| ==> WellFormedItem(d.next.result.items[i])
  }

  predicate WellFormedItem(it: IteratorItem)
    decreases it, 0
  {
    ItemLength(it) <= |ItemText(it)| &&
    forall j :: 0 <= j < |it.placeholders| ==> WellFormedEntry(it.placeholders[j])
  }

  predicate WellFormedEntries(es: seq<PlaceholderEntry>)
  {
    forall j :: 0 <= j < |es| ==> WellFormedEntry(es[j])
  }

  /** A staging-buffer triple: read cursor, fill level and the template offset of the fill. */
  datatype BufferCache = BufferCache(pos: nat, len: nat, offset: nat)

  const EmptyCache: BufferCache := BufferCache(0, 0, 0)

  datatype ContextType =
    | TemplateContext
    | PlaceholderDataContext
    | PlaceholderTemplateContext
    | PlaceholderDynamicTemplateContext
    | PlaceholderConditionalContext
    | PlaceholderIteratorContext

  /** One entry of the rendering stack; the variant is the frame's context type. */
  datatype Frame =
    | TemplateFrame(name: CString, templateData: CString, templateLen: nat, isProgmem: bool,
                    position: nat, overrides: seq<PlaceholderEntry>)
    | DataFrame(name: CString, entry: PlaceholderEntry, offset: nat)
    | TemplatePlaceholderFrame(name: CString, entry: PlaceholderEntry)
    | DynamicTemplateFrame(name: CString, entry: PlaceholderEntry, offset: nat,
                           text: CString, textLength: nat)
    | ConditionalFrame(name: CString, entry: PlaceholderEntry, conditional: ConditionalDescriptor,
                       branchResolved: bool, delegateName: Option<CString>,
                       delegateEntry: Option<PlaceholderEntry>)
    | IteratorFrame(name: CString, entry: PlaceholderEntry, iteratorDescriptor: Option<IteratorDescriptor>,
                    handleNonNull: bool, initialized: bool, handleOpen: bool, cursor: nat)

  /** A zero-filled stack slot. */
  const EmptyFrame: Frame := TemplateFrame("", "", 0, false, 0, [])

  function KindOf(f: Frame): ContextType
  {
    match f
    case TemplateFrame(_, _, _, _, _, _) => TemplateContext
    case DataFrame(_, _, _) => PlaceholderDataContext
    case TemplatePlaceholderFrame(_, _) => PlaceholderTemplateContext
    case DynamicTemplateFrame(_, _, _, _, _) => PlaceholderDynamicTemplateContext
    case ConditionalFrame(_, _, _, _, _, _) => PlaceholderConditionalContext
    case IteratorFrame(_, _, _, _, _, _, _) => PlaceholderIteratorContext
  }

  /** Frames the engine can continue from: template bytes within the text, well-formed entries. */
  predicate WellFormedFrame(f: Frame)
  {
    match f
    case TemplateFrame(_, data, len, _, position, overrides) =>
      len <= |data| && position <= len && WellFormedEntries(overrides)
    case IteratorFrame(_, _, d, _, _, _, _) => d.Some? ==> WellFormedIterator(d.value)
    case _ => true
  }

  datatype RenderState = Text | BuildingPlaceholder | RenderingContext | Completed | Errored
}
