/**
  The Messages wire translator and the request rebuilder (plugins/llm-compat/src/messages.cpp): what a
  stream settles, and which signature each rebuilt thinking block gets back.
 */
module MessagesTranslator {
  import opened Basics
  import opened Accumulator
  import opened Streams

  // ---------------------------------------------------------------------------------------------
  // Wire events

  datatype EventIndex = NoIndex | Index(n: nat) | BadIndex

  /** A content block as it starts; the input of a tool use is its serialised text, empty when absent. */
  datatype Content =
    | TextContent(text: string)
    | ThinkingContent(thinking: string, signature: string)
    | ToolContent(id: string, name: string, input: string)
    | UnsupportedContent

  datatype Delta =
    | TextPart(text: string)
    | ThinkingPart(thinking: string)
    | SignaturePart(signature: string)
    | JsonPart(json: string)
    | UnsupportedPart

  datatype StartUsage = StartUsage(input: nat, output: nat, cacheRead: Option<nat>, cacheWrite: Option<nat>)

  datatype Event =
    | MessageStart(usage: Option<StartUsage>)
    | BlockStart(index: EventIndex, content: Option<Content>)
    | BlockDelta(index: EventIndex, delta: Option<Delta>)
    | BlockStop(index: EventIndex)
    | MessageDelta(index: EventIndex, reason: string, newOutput: Option<nat>, newInput: Option<nat>)
    | MessageStop(index: EventIndex)
    | OtherEvent(index: EventIndex)

  datatype WireBlock = WireBlock(
    kind: Kind,
    text: string,
    id: string,
    name: string,
    json: string,
    signature: string,
    closed: bool)

  function Opened(c: Content): WireBlock
    requires !c.UnsupportedContent?
  {
    match c
    case TextContent(t) => WireBlock(TextKind, t, "", "", "", "", false)
    case ThinkingContent(t, sig) => WireBlock(ReasoningKind, t, "", "", "", sig, false)
    case ToolContent(id, name, input) => WireBlock(ToolKind, input, id, name, "", "", false)
  }

  predicate Fits(b: WireBlock, d: Delta) {
    match d
    case TextPart(_) => b.kind == TextKind
    case ThinkingPart(_) => b.kind == ReasoningKind
    case SignaturePart(_) => b.kind == ReasoningKind
    case JsonPart(_) => b.kind == ToolKind
    case UnsupportedPart => false
  }

  function Grown(b: WireBlock, d: Delta): WireBlock {
    match d
    case TextPart(t) => b.(text := b.text + t)
    case ThinkingPart(t) => b.(text := b.text + t)
    case SignaturePart(s) => b.(signature := b.signature + s)
    case JsonPart(j) => b.(json := b.json + j)
    case UnsupportedPart => b
  }

  /** The block a stop delivers. */
  function Ending(b: WireBlock): Block {
    match b.kind
    case TextKind => TextBlock(b.text)
    case ReasoningKind => ReasoningBlock(b.text)
    case ToolKind => ToolCall(b.id, b.name, if b.json == "" then b.text else b.json)
  }

  /** The deltas streamed for a block: a tool's start input is not among them. */
  function Streamed(b: WireBlock): string {
    if b.kind == ToolKind then b.json else b.text
  }

  /** Its end delivers exactly those: no tool's start input stands in for missing deltas. */
  predicate Whole(b: WireBlock) {
    b.kind == ToolKind ==> b.json != "" || b.text == ""
  }

  // ---------------------------------------------------------------------------------------------
  // What a run of accepted events amounts to

  function WireIndex(i: EventIndex): nat {
    if i.Index? then i.n else 0
  }

  /** Wire indices in the order their blocks start, and in the order they stop. */
  ghost function StartsOf(es: seq<Event>): seq<nat> {
    if es == [] then []
    else StartsOf(es[..|es| - 1]) + if es[|es| - 1].BlockStart? then [WireIndex(es[|es| - 1].index)] else []
  }

  ghost function StopsOf(es: seq<Event>): seq<nat> {
    if es == [] then []
    else StopsOf(es[..|es| - 1]) + if es[|es| - 1].BlockStop? then [WireIndex(es[|es| - 1].index)] else []
  }

  /** The block at a wire index: its start, then all its deltas, then perhaps its stop. */
  ghost function BlockAt(es: seq<Event>, w: nat): Option<WireBlock> {
    if es == [] then None
    else
      var rest, e := BlockAt(es[..|es| - 1], w), es[|es| - 1];
      match e
      case BlockStart(i, c) =>
        if WireIndex(i) == w && c.Some? && !c.value.UnsupportedContent? then Some(Opened(c.value)) else rest
      case BlockDelta(i, d) =>
        if WireIndex(i) == w && rest.Some? && d.Some? then Some(Grown(rest.value, d.value)) else rest
      case BlockStop(i) => if WireIndex(i) == w && rest.Some? then Some(rest.value.(closed := true)) else rest
      case _ => rest
  }

  // What the events say of a block, whatever the translator makes of them

  datatype Aspect = Words | Input | StartInput | Signature | Identity | Name

  function StartSays(c: Content, a: Aspect): string {
    match c
    case TextContent(t) => if a.Words? then t else ""
    case ThinkingContent(t, s) => if a.Words? then t else if a.Signature? then s else ""
    case ToolContent(id, name, input) =>
      if a.Identity? then id else if a.Name? then name else if a.StartInput? then input else ""
    case UnsupportedContent => ""
  }

  function DeltaSays(d: Delta, a: Aspect): string {
    match d
    case TextPart(t) => if a.Words? then t else ""
    case ThinkingPart(t) => if a.Words? then t else ""
    case SignaturePart(s) => if a.Signature? then s else ""
    case JsonPart(j) => if a.Input? then j else ""
    case UnsupportedPart => ""
  }

  function Says(e: Event, w: nat, a: Aspect): string {
    match e
    case BlockStart(i, c) => if WireIndex(i) == w && c.Some? then StartSays(c.value, a) else ""
    case BlockDelta(i, d) => if WireIndex(i) == w && d.Some? then DeltaSays(d.value, a) else ""
    case _ => ""
  }

  /** One aspect of the block at a wire index: what its start has of it, and then every delta, in order. */
  ghost function Gathered(es: seq<Event>, w: nat, a: Aspect): string {
    if es == [] then "" else Gathered(es[..|es| - 1], w, a) + Says(es[|es| - 1], w, a)
  }

  ghost function KindAt(es: seq<Event>, w: nat): Option<Kind> {
    if es == [] then None
    else
      var rest := KindAt(es[..|es| - 1], w);
      match es[|es| - 1]
      case BlockStart(i, c) =>
        if WireIndex(i) != w || c.None? then rest
        else
          (match c.value
           case TextContent(_) => Some(TextKind)
           case ThinkingContent(_, _) => Some(ReasoningKind)
           case ToolContent(_, _, _) => Some(ToolKind)
           case UnsupportedContent => rest)
      case _ => rest
  }

  lemma GatherSnoc(es: seq<Event>, e: Event, w: nat)
    ensures forall a :: Gathered(es + [e], w, a) == Gathered(es, w, a) + Says(e, w, a)
    ensures !e.BlockStart? ==> KindAt(es + [e], w) == KindAt(es, w)
    ensures e.BlockStart? && WireIndex(e.index) != w ==> KindAt(es + [e], w) == KindAt(es, w)
    ensures e.BlockStart? && WireIndex(e.index) == w && e.content.Some? && !e.content.value.UnsupportedContent? ==>
      KindAt(es + [e], w) == Some(Opened(e.content.value).kind)
  {
    assert (es + [e])[..|es|] == es;
  }

  /** A block holds what has been gathered for it. */
  ghost predicate Holds(b: WireBlock, es: seq<Event>, w: nat) {
    && KindAt(es, w) == Some(b.kind)
    && b.text == Gathered(es, w, if b.kind == ToolKind then StartInput else Words)
    && b.json == Gathered(es, w, Input) && b.signature == Gathered(es, w, Signature)
    && b.id == Gathered(es, w, Identity) && b.name == Gathered(es, w, Name)
  }

  lemma HoldsStart(es: seq<Event>, w: nat, c: Content)
    requires !c.UnsupportedContent? && forall a :: Gathered(es, w, a) == ""
    ensures Holds(Opened(c), es + [BlockStart(Index(w), Some(c))], w)
  {
    hide Gathered, KindAt;
    GatherSnoc(es, BlockStart(Index(w), Some(c)), w);
    assert forall a :: "" + StartSays(c, a) == StartSays(c, a);
  }

  lemma HoldsDelta(b: WireBlock, es: seq<Event>, i: EventIndex, d: Delta)
    requires Holds(b, es, WireIndex(i)) && Fits(b, d)
    ensures Holds(Grown(b, d), es + [BlockDelta(i, Some(d))], WireIndex(i))
  {
    hide Gathered, KindAt;
    GatherSnoc(es, BlockDelta(i, Some(d)), WireIndex(i));
  }

  /** Events of other blocks, and events that say nothing of any. */
  lemma HoldsStill(b: WireBlock, es: seq<Event>, e: Event, w: nat)
    requires Holds(b, es, w)
    requires e.BlockStart? ==> WireIndex(e.index) != w
    requires e.BlockDelta? ==> WireIndex(e.index) != w
    ensures Holds(b, es + [e], w) && Holds(b.(closed := true), es + [e], w)
  {
    hide Gathered, KindAt;
    GatherSnoc(es, e, w);
  }

  /** Every stop is of a block that has started and not stopped before. */
  ghost predicate Proper(es: seq<Event>) {
    es == []
    || (var rest, e := es[..|es| - 1], es[|es| - 1];
        Proper(rest) && (e.BlockStop? ==> WireIndex(e.index) in StartsOf(rest) && WireIndex(e.index) !in StopsOf(rest)))
  }

  /** Each block stops before the next one starts. */
  ghost predicate Sequential(es: seq<Event>) {
    es == []
    || (var rest, e := es[..|es| - 1], es[|es| - 1];
        Sequential(rest) && (e.BlockStart? ==> |StopsOf(rest)| == |StartsOf(rest)|))
  }

  /** Then the blocks stop in the order they start. */
  lemma {:induction false} SequentialStops(es: seq<Event>)
    requires Proper(es) && Sequential(es)
    ensures StopsOf(es) <= StartsOf(es) && |StartsOf(es)| <= |StopsOf(es)| + 1
  {
    if es != [] {
      SequentialStops(es[..|es| - 1]);
    }
  }

  /** Whether the message has begun, its last stop reason, and the last reason that was not a known one. */
  ghost predicate Begun(es: seq<Event>) {
    es != [] && (es[|es| - 1].MessageStart? || Begun(es[..|es| - 1]))
  }

  ghost function ReasonOf(es: seq<Event>): Option<Why> {
    if es == [] then None
    else
      match es[|es| - 1]
      case MessageDelta(_, reason, _, _) => if reason != "" then Some(Meaning(reason)) else ReasonOf(es[..|es| - 1])
      case _ => ReasonOf(es[..|es| - 1])
  }

  ghost function RefusalOf(es: seq<Event>): Option<Failure> {
    if es == [] then None
    else
      match es[|es| - 1]
      case MessageDelta(_, reason, _, _) =>
        if reason != "" && Meaning(reason) == Failed then Some(Refused(reason)) else RefusalOf(es[..|es| - 1])
      case _ => RefusalOf(es[..|es| - 1])
  }

  // What the events report of the tokens spent

  function InputIn(e: Event): Option<nat> {
    match e
    case MessageStart(u) => if u.Some? then Some(u.value.input) else None
    case MessageDelta(_, _, _, input) => input
    case _ => None
  }

  function OutputIn(e: Event): Option<nat> {
    match e
    case MessageStart(u) => if u.Some? then Some(u.value.output) else None
    case MessageDelta(_, _, output, _) => output
    case _ => None
  }

  /** The last count reported, and nothing at first. */
  ghost function LastInput(es: seq<Event>): nat {
    if es == [] then 0 else if InputIn(es[|es| - 1]).Some? then InputIn(es[|es| - 1]).value else LastInput(es[..|es| - 1])
  }

  ghost function LastOutput(es: seq<Event>): nat {
    if es == [] then 0 else if OutputIn(es[|es| - 1]).Some? then OutputIn(es[|es| - 1]).value else LastOutput(es[..|es| - 1])
  }

  ghost function LastCache(es: seq<Event>): (Option<nat>, Option<nat>) {
    if es == [] then (None, None)
    else
      match es[|es| - 1]
      case MessageStart(u) => if u.Some? then (u.value.cacheRead, u.value.cacheWrite) else LastCache(es[..|es| - 1])
      case _ => LastCache(es[..|es| - 1])
  }

  /** The tokens spent on a message: the last counts, and their sum with what the cache took. */
  ghost function Spent(es: seq<Event>): Usage {
    var i, o, c := LastInput(es), LastOutput(es), LastCache(es);
    Usage(i, o, i + o + Count(c.0) + Count(c.1), c.0, c.1, None)
  }

  lemma SpentSnoc(es: seq<Event>, e: Event)
    ensures LastInput(es + [e]) == if InputIn(e).Some? then InputIn(e).value else LastInput(es)
    ensures LastOutput(es + [e]) == if OutputIn(e).Some? then OutputIn(e).value else LastOutput(es)
    ensures LastCache(es + [e]) ==
      if e.MessageStart? && e.usage.Some? then (e.usage.value.cacheRead, e.usage.value.cacheWrite) else LastCache(es)
  {
    assert (es + [e])[..|es|] == es;
  }

  lemma NotedSnoc(es: seq<Event>, e: Event)
    ensures Begun(es + [e]) <==> e.MessageStart? || Begun(es)
    ensures ReasonOf(es + [e]) == if e.MessageDelta? && e.reason != "" then Some(Meaning(e.reason)) else ReasonOf(es)
    ensures RefusalOf(es + [e]) ==
      if e.MessageDelta? && e.reason != "" && Meaning(e.reason) == Failed then Some(Refused(e.reason)) else RefusalOf(es)
    ensures !e.MessageStart? && !e.MessageDelta? ==> Spent(es + [e]) == Spent(es)
  {
    assert (es + [e])[..|es|] == es;
    SpentSnoc(es, e);
  }

  /** A reason that is not a known one has been read exactly when a refusal is kept, and a stream is
      never said to be aborted. */
  lemma {:induction false} RefusalNoted(es: seq<Event>)
    ensures RefusalOf(es).Some? <==> exists i :: 0 <= i < |es| && IsRefusal(es[i])
    ensures ReasonOf(es) == Some(Failed) ==> RefusalOf(es).Some?
    ensures ReasonOf(es) != Some(Aborted)
  {
    if es != [] {
      var l := |es| - 1;
      RefusalNoted(es[..l]);
      if i :| 0 <= i < |es| && IsRefusal(es[i]) {
        assert i < l ==> es[..l][i] == es[i];
      }
      if i :| 0 <= i < l && IsRefusal(es[..l][i]) {
        assert es[i] == es[..l][i];
      }
      assert IsRefusal(es[l]) ==> RefusalOf(es).Some?;
    }
  }

  predicate IsRefusal(e: Event) {
    e.MessageDelta? && e.reason != "" && Meaning(e.reason) == Failed
  }

  lemma EventSnoc(es: seq<Event>, e: Event, w: nat)
    ensures StartsOf(es + [e]) == StartsOf(es) + if e.BlockStart? then [WireIndex(e.index)] else []
    ensures StopsOf(es + [e]) == StopsOf(es) + if e.BlockStop? then [WireIndex(e.index)] else []
    ensures BlockAt(es + [e], w) ==
      var rest := BlockAt(es, w);
      if e.BlockStart? && WireIndex(e.index) == w && e.content.Some? && !e.content.value.UnsupportedContent? then Some(Opened(e.content.value))
      else if e.BlockDelta? && WireIndex(e.index) == w && rest.Some? && e.delta.Some? then Some(Grown(rest.value, e.delta.value))
      else if e.BlockStop? && WireIndex(e.index) == w && rest.Some? then Some(rest.value.(closed := true))
      else rest
  {
    assert (es + [e])[..|es|] == es;
  }

  // ---------------------------------------------------------------------------------------------
  // Invariants

  /** The emitted chunks say of each block what the translator holds; `stops` are the positions in
      the order they stopped. */
  ghost predicate Mirrors(order: seq<WireBlock>, stops: seq<nat>, emitted: seq<Chunk>) {
    && Grammatical(emitted) && !Finished(emitted) && Starts(emitted) == |order|
    && (forall i: nat | i < |order| :: Mirrored(order[i], emitted, i))
    && (forall j | 0 <= j < |stops| :: stops[j] < |order| && order[stops[j]].closed)
    && (forall i: nat | i < |order| && order[i].closed :: i in stops)
    && (forall j, k | 0 <= j < k < |stops| :: stops[j] != stops[k])
    && |EndBlocks(emitted)| == |stops|
    && (forall j | 0 <= j < |stops| :: EndBlocks(emitted)[j] == Ending(order[stops[j]]))
    && (Faithful(emitted) <==> EndsWhole(order))
  }

  ghost predicate EndsWhole(order: seq<WireBlock>) {
    forall i | 0 <= i < |order| && order[i].closed :: Whole(order[i])
  }

  ghost predicate Mirrored(b: WireBlock, emitted: seq<Chunk>, i: nat) {
    && StartedAs(emitted, i) == Some(b.kind)
    && (Ended(emitted, i) <==> b.closed)
    && TextOf(emitted, i) == Streamed(b)
    && NamesOf(emitted, i) == (b.id, b.name)
  }

  /** Positions, wire indices and the events read so far agree. */
  ghost predicate Indexed(order: seq<WireBlock>, stops: seq<nat>, wire: map<nat, nat>, fed: seq<Event>) {
    && |StartsOf(fed)| == |order|
    && (forall p | 0 <= p < |order| :: StartsOf(fed)[p] in wire && wire[StartsOf(fed)[p]] == p)
    && (forall w | w in wire :: wire[w] < |order| && StartsOf(fed)[wire[w]] == w)
    && (forall w | w in wire :: BlockAt(fed, w) == Some(order[wire[w]]))
    && |StopsOf(fed)| == |stops|
    && (forall j | 0 <= j < |stops| :: stops[j] < |order| && StopsOf(fed)[j] == StartsOf(fed)[stops[j]])
    && Gathers(order, wire, fed)
  }

  /** Each block holds what has been gathered for it, and nothing has been said of any other. */
  ghost predicate Gathers(order: seq<WireBlock>, wire: map<nat, nat>, fed: seq<Event>) {
    && |StartsOf(fed)| == |order|
    && (forall p | 0 <= p < |order| :: Holds(order[p], fed, StartsOf(fed)[p]))
    && (forall w, a | w !in wire :: Gathered(fed, w, a) == "")
  }

  lemma MirrorsBlank(order: seq<WireBlock>, stops: seq<nat>, emitted: seq<Chunk>, b: WireBlock)
    requires Mirrors(order, stops, emitted) && !b.closed && Streamed(b) == "" && b.id == "" && b.name == ""
    ensures Mirrors(order + [b], stops, emitted + [Start(|order|, b.kind)])
  {
    hide StartedAs, Ended, TextOf, NamesOf, Finished, Starts, EndBlocks, Grammatical, Faithful, Ending, Streamed;
    var c := Start(|order|, b.kind);
    SnocWhole(emitted, c);
    forall i: nat | i <= |order| ensures Mirrored((order + [b])[i], emitted + [c], i) {
      Snoc(emitted, c, i);
      Dense(emitted, i);
      assert i < |order| ==> Mirrored(order[i], emitted, i);
    }
    assert EndsWhole(order + [b]) <==> EndsWhole(order) by {
      assert forall i | 0 <= i < |order| :: (order + [b])[i] == order[i];
    }
  }

  predicate DeltaFor(k: Kind, p: nat, c: Chunk) {
    match k
    case TextKind => c.TextDelta? && c.index == p
    case ReasoningKind => c.ReasoningDelta? && c.index == p
    case ToolKind => c.ToolDelta? && c.index == p
  }

  lemma MirrorsOne(order: seq<WireBlock>, stops: seq<nat>, emitted: seq<Chunk>, p: nat, b: WireBlock, c: Chunk)
    requires Mirrors(order, stops, emitted) && p < |order| && !order[p].closed && DeltaFor(b.kind, p, c)
    requires b.kind == order[p].kind && !b.closed && Streamed(b) == Streamed(order[p]) + Added(c, p)
    requires (b.id, b.name) == if c.ToolDelta? then (if c.id != "" then c.id else order[p].id, if c.name != "" then c.name else order[p].name)
                               else (order[p].id, order[p].name)
    ensures Mirrors(order[p := b], stops, emitted + [c])
  {
    hide StartedAs, Ended, TextOf, NamesOf, Finished, Starts, EndBlocks, Grammatical, Faithful, Ending, Streamed;
    var more := order[p := b];
    assert Mirrored(order[p], emitted, p);
    SnocWhole(emitted, c);
    forall i: nat | i < |order| ensures Mirrored(more[i], emitted + [c], i) {
      assert Mirrored(order[i], emitted, i);
      Snoc(emitted, c, i);
    }
  }

  lemma MirrorsOpen(order: seq<WireBlock>, stops: seq<nat>, emitted: seq<Chunk>, c: Content)
    requires Mirrors(order, stops, emitted) && !c.UnsupportedContent?
    ensures Mirrors(order + [Opened(c)], stops, emitted + StartChunks(|order|, Opened(c)))
  {
    hide Mirrors;
    var b, p := Opened(c), |order|;
    var blank := if b.kind == ToolKind then b.(id := "", name := "") else b.(text := "");
    MirrorsBlank(order, stops, emitted, blank);
    var rest := StartChunks(p, b)[1..];
    assert emitted + StartChunks(p, b) == (emitted + [Start(p, b.kind)]) + rest;
    if rest == [] {
      assert emitted + [Start(p, b.kind)] + rest == emitted + [Start(p, b.kind)];
    } else {
      MirrorsOne(order + [blank], stops, emitted + [Start(p, b.kind)], p, b, rest[0]);
      assert rest == [rest[0]] && (order + [blank])[p := b] == order + [b];
    }
  }

  /** The chunks of a block start: the start, then whatever the start already carried. */
  function StartChunks(i: nat, b: WireBlock): (cs: seq<Chunk>)
    ensures 1 <= |cs| <= 2 && cs[0] == Start(i, b.kind)
  {
    [Start(i, b.kind)]
    + match b.kind
      case TextKind => if b.text != "" then [TextDelta(i, b.text)] else []
      case ReasoningKind => if b.text != "" then [ReasoningDelta(i, b.text)] else []
      case ToolKind => [ToolDelta(i, b.id, b.name, "")]
  }

  /** The chunk a delta makes; a signature makes none. */
  function DeltaChunks(i: nat, b: WireBlock, d: Delta): seq<Chunk> {
    match d
    case TextPart(t) => [TextDelta(i, t)]
    case ThinkingPart(t) => [ReasoningDelta(i, t)]
    case JsonPart(j) => [ToolDelta(i, b.id, b.name, j)]
    case _ => []
  }

  lemma MirrorsDelta(order: seq<WireBlock>, stops: seq<nat>, emitted: seq<Chunk>, p: nat, d: Delta)
    requires Mirrors(order, stops, emitted) && p < |order| && !order[p].closed && Fits(order[p], d)
    ensures Mirrors(order[p := Grown(order[p], d)], stops, emitted + DeltaChunks(p, order[p], d))
  {
    if d.SignaturePart? {
      assert emitted + [] == emitted;
      var more := order[p := Grown(order[p], d)];
      forall i: nat | i < |order| ensures Mirrored(more[i], emitted, i) {
        assert Mirrored(order[i], emitted, i);
      }
    } else {
      MirrorsOne(order, stops, emitted, p, Grown(order[p], d), DeltaChunks(p, order[p], d)[0]);
    }
  }

  lemma MirrorsStop(order: seq<WireBlock>, stops: seq<nat>, emitted: seq<Chunk>, p: nat)
    requires Mirrors(order, stops, emitted) && p < |order| && !order[p].closed
    ensures Mirrors(order[p := order[p].(closed := true)], stops + [p], emitted + [End(p, Ending(order[p]))])
  {
    hide StartedAs, Ended, TextOf, NamesOf, Finished, Starts, EndBlocks, Grammatical, Faithful;
    var c := End(p, Ending(order[p]));
    var more := order[p := order[p].(closed := true)];
    assert Mirrored(order[p], emitted, p);
    SnocWhole(emitted, c);
    forall i: nat | i < |order| ensures Mirrored(more[i], emitted + [c], i) && (more[i].closed ==> i in stops + [p]) {
      Snoc(emitted, c, i);
      assert Mirrored(order[i], emitted, i);
      assert (stops + [p])[|stops|] == p;
    }
    assert Ending(order[p]) == Close(Partial(emitted, p)) <==> Whole(order[p]);
    StoppedWhole(order, p);
  }

  lemma StoppedWhole(order: seq<WireBlock>, p: nat)
    requires p < |order| && !order[p].closed
    ensures EndsWhole(order[p := order[p].(closed := true)]) <==> EndsWhole(order) && Whole(order[p])
  {
    var more := order[p := order[p].(closed := true)];
    if EndsWhole(more) {
      forall i | 0 <= i < |order| && order[i].closed ensures Whole(order[i]) {
        assert more[i] == order[i];
      }
      assert Whole(more[p]);
    }
  }

  lemma {:induction false} Unstarted(es: seq<Event>, w: nat)
    requires w !in StartsOf(es)
    ensures BlockAt(es, w) == None
  {
    if es != [] {
      Unstarted(es[..|es| - 1], w);
    }
  }

  lemma ProperStart(fed: seq<Event>, e: Event)
    requires Proper(fed) && !e.BlockStop?
    ensures Proper(fed + [e])
  {
    assert (fed + [e])[..|fed|] == fed;
  }

  lemma ProperStop(order: seq<WireBlock>, stops: seq<nat>, wire: map<nat, nat>, fed: seq<Event>, emitted: seq<Chunk>, i: EventIndex)
    requires Proper(fed) && Indexed(order, stops, wire, fed) && Mirrors(order, stops, emitted)
    requires WireIndex(i) in wire && !order[wire[WireIndex(i)]].closed
    ensures Proper(fed + [BlockStop(i)])
  {
    hide StartedAs, Ended, TextOf, NamesOf, Finished, Starts, EndBlocks, Grammatical, Faithful, Ending, StartsOf, StopsOf, BlockAt;
    var w := WireIndex(i);
    assert (fed + [BlockStop(i)])[..|fed|] == fed;
    assert StartsOf(fed)[wire[w]] == w;
    forall j | 0 <= j < |stops| ensures StopsOf(fed)[j] != w {
      assert order[stops[j]].closed;
    }
  }

  lemma IndexedStart(order: seq<WireBlock>, stops: seq<nat>, wire: map<nat, nat>, fed: seq<Event>, w: nat, c: Content)
    requires Indexed(order, stops, wire, fed) && w !in wire && !c.UnsupportedContent?
    ensures Indexed(order + [Opened(c)], stops, wire[w := |order|], fed + [BlockStart(Index(w), Some(c))])
  {
    hide StartsOf, StopsOf, BlockAt, Opened, Holds, Gathered;
    var e := BlockStart(Index(w), Some(c));
    EventSnoc(fed, e, w);
    HoldsStart(fed, w, c);
    forall p | 0 <= p < |order| ensures Holds(order[p], fed + [e], StartsOf(fed)[p]) {
      HoldsStill(order[p], fed, e, StartsOf(fed)[p]);
    }
    forall v, a | v !in wire && v != w ensures Gathered(fed + [e], v, a) == "" {
      GatherSnoc(fed, e, v);
    }
    forall v | v in wire[w := |order|] ensures BlockAt(fed + [e], v) == Some((order + [Opened(c)])[wire[w := |order|][v]]) {
      EventSnoc(fed, e, v);
    }
  }

  lemma IndexedDelta(order: seq<WireBlock>, stops: seq<nat>, wire: map<nat, nat>, fed: seq<Event>, i: EventIndex, d: Delta)
    requires Indexed(order, stops, wire, fed) && WireIndex(i) in wire && Fits(order[wire[WireIndex(i)]], d)
    ensures wire[WireIndex(i)] < |order|
    ensures Indexed(order[wire[WireIndex(i)] := Grown(order[wire[WireIndex(i)]], d)], stops, wire, fed + [BlockDelta(i, Some(d))])
  {
    hide StartsOf, StopsOf, BlockAt, Grown, Holds, Gathered;
    var w := WireIndex(i);
    var p := wire[w];
    var e := BlockDelta(i, Some(d));
    EventSnoc(fed, e, w);
    assert StartsOf(fed)[p] == w;
    HoldsDelta(order[p], fed, i, d);
    forall q | 0 <= q < |order| && q != p ensures Holds(order[q], fed + [e], StartsOf(fed)[q]) {
      assert wire[StartsOf(fed)[q]] == q;
      HoldsStill(order[q], fed, e, StartsOf(fed)[q]);
    }
    forall v, a | v !in wire ensures Gathered(fed + [e], v, a) == "" {
      GatherSnoc(fed, e, v);
    }
    forall v | v in wire ensures BlockAt(fed + [e], v) == Some(order[p := Grown(order[p], d)][wire[v]]) {
      EventSnoc(fed, e, v);
      assert StartsOf(fed)[wire[v]] == v;
    }
  }

  lemma IndexedStop(order: seq<WireBlock>, stops: seq<nat>, wire: map<nat, nat>, fed: seq<Event>, i: EventIndex)
    requires Indexed(order, stops, wire, fed) && WireIndex(i) in wire
    ensures wire[WireIndex(i)] < |order|
    ensures Indexed(order[wire[WireIndex(i)] := order[wire[WireIndex(i)]].(closed := true)], stops + [wire[WireIndex(i)]], wire, fed + [BlockStop(i)])
  {
    hide StartsOf, StopsOf, BlockAt, Holds, Gathered;
    var w := WireIndex(i);
    var p := wire[w];
    var e := BlockStop(i);
    EventSnoc(fed, e, w);
    forall q | 0 <= q < |order| ensures Holds(order[p := order[p].(closed := true)][q], fed + [e], StartsOf(fed)[q]) {
      HoldsStill(order[q], fed, e, StartsOf(fed)[q]);
    }
    forall v, a | v !in wire ensures Gathered(fed + [e], v, a) == "" {
      GatherSnoc(fed, e, v);
    }
    forall v | v in wire ensures BlockAt(fed + [e], v) == Some(order[p := order[p].(closed := true)][wire[v]]) {
      EventSnoc(fed, e, v);
      assert StartsOf(fed)[wire[v]] == v;
    }
  }

  lemma IndexedOther(order: seq<WireBlock>, stops: seq<nat>, wire: map<nat, nat>, fed: seq<Event>, e: Event)
    requires Indexed(order, stops, wire, fed) && !e.BlockStart? && !e.BlockDelta? && !e.BlockStop?
    ensures Indexed(order, stops, wire, fed + [e])
  {
    hide StartsOf, StopsOf, BlockAt, Holds, Gathered;
    EventSnoc(fed, e, 0);
    forall q | 0 <= q < |order| ensures Holds(order[q], fed + [e], StartsOf(fed)[q]) {
      HoldsStill(order[q], fed, e, StartsOf(fed)[q]);
    }
    forall v, a | v !in wire ensures Gathered(fed + [e], v, a) == "" {
      GatherSnoc(fed, e, v);
    }
    forall v | v in wire ensures BlockAt(fed + [e], v) == Some(order[wire[v]]) {
      EventSnoc(fed, e, v);
    }
  }

  lemma NothingYet(order: seq<WireBlock>, stops: seq<nat>, wire: map<nat, nat>, fed: seq<Event>, w: nat)
    requires Indexed(order, stops, wire, fed) && w !in wire
    ensures forall a :: Gathered(fed, w, a) == ""
  {}

  lemma HoldsHere(order: seq<WireBlock>, stops: seq<nat>, wire: map<nat, nat>, fed: seq<Event>, w: nat)
    requires Indexed(order, stops, wire, fed) && w in wire
    ensures wire[w] < |order| && Holds(order[wire[w]], fed, w)
  {
    hide Holds;
    assert StartsOf(fed)[wire[w]] == w;
  }

  function Meaning(reason: string): (why: Why)
    ensures why == Stopped <==> reason in {"end_turn", "stop_sequence"}
    ensures why == ToolCalls <==> reason == "tool_use"
    ensures why == MaxTokens <==> reason == "max_tokens"
    ensures why != Aborted
  {
    if reason == "end_turn" || reason == "stop_sequence" then Stopped
    else if reason == "tool_use" then ToolCalls
    else if reason == "max_tokens" then MaxTokens
    else Failed
  }

  function Signatures(order: seq<WireBlock>): (r: Replay)
    ensures |r| == |order|
    ensures forall i | 0 <= i < |order| :: r[i] == if order[i].kind == ReasoningKind then Some(order[i].signature) else None
  {
    if order == [] then []
    else
      var b := order[|order| - 1];
      Signatures(order[..|order| - 1]) + [if b.kind == ReasoningKind then Some(b.signature) else None]
  }

  class Translator {
    var order: seq<WireBlock>
    var wireIndex: map<nat, nat>
    var usage: Usage
    var pendingFinish: Option<Why>
    var pendingFailure: Option<Failure>
    var started: bool
    var done: bool
    ghost var stops: seq<nat>
    ghost var emitted: seq<Chunk>
    ghost var fed: seq<Event>

    /** What the fields say of the message is what these events said. */
    ghost predicate Noted(es: seq<Event>)
      reads this
    {
      && (started <==> Begun(es)) && pendingFinish == ReasonOf(es) && pendingFailure == RefusalOf(es)
      && usage.(total := Spent(es).total) == Spent(es)
    }

    ghost predicate Holding()
      reads this
    {
      Mirrors(order, stops, emitted) && Indexed(order, stops, wireIndex, fed) && Proper(fed) && !done
    }

    ghost predicate Valid()
      reads this
    {
      Holding() && Noted(fed)
    }

    constructor ()
      ensures Valid() && emitted == [] && fed == [] && !started && pendingFinish == None
    {
      order, wireIndex, usage := [], map[], Usage(0, 0, 0, None, None, None);
      pendingFinish, pendingFailure, started, done := None, None, false, false;
      stops, emitted, fed := [], [], [];
    }

    method StartBlock(w: nat, content: Content) returns (chunks: seq<Chunk>)
      requires Valid() && w !in wireIndex && !content.UnsupportedContent?
      modifies this`order, this`wireIndex, this`emitted, this`fed
      ensures Valid() && emitted == old(emitted) + chunks && fed == old(fed) + [BlockStart(Index(w), Some(content))]
      ensures order == old(order) + [Opened(content)] && Holds(Opened(content), fed, w)
    {
      hide Mirrors, Indexed, Opened, Proper, Begun, ReasonOf, RefusalOf, Spent, Holds;
      ProperStart(fed, BlockStart(Index(w), Some(content)));
      NotedSnoc(fed, BlockStart(Index(w), Some(content)));
      wireIndex := wireIndex[w := |order|];
      NothingYet(order, stops, old(wireIndex), fed, w);
      HoldsStart(fed, w, content);
      IndexedStart(order, stops, old(wireIndex), fed, w, content);
      MirrorsOpen(order, stops, emitted, content);
      var block := Opened(content);
      chunks := [Start(|order|, block.kind)];
      if block.kind == TextKind {
        if block.text != "" {
          chunks := chunks + [TextDelta(|order|, block.text)];
        }
      } else if block.kind == ReasoningKind {
        if block.text != "" {
          chunks := chunks + [ReasoningDelta(|order|, block.text)];
        }
      } else {
        chunks := chunks + [ToolDelta(|order|, block.id, block.name, "")];
      }
      assert chunks == StartChunks(|order|, block);
      order := order + [block];
      emitted, fed := emitted + chunks, fed + [BlockStart(Index(w), Some(content))];
    }

    method ApplyDelta(index: EventIndex, d: Delta) returns (chunks: seq<Chunk>)
      requires Valid() && WireIndex(index) in wireIndex && !order[wireIndex[WireIndex(index)]].closed
      requires Fits(order[wireIndex[WireIndex(index)]], d)
      modifies this`order, this`emitted, this`fed
      ensures Valid() && emitted == old(emitted) + chunks && fed == old(fed) + [BlockDelta(index, Some(d))]
      ensures var p := wireIndex[WireIndex(index)];
        && p < |old(order)| && order == old(order)[p := Grown(old(order)[p], d)] && chunks == DeltaChunks(p, old(order)[p], d)
        && Holds(order[p], fed, WireIndex(index))
    {
      hide Mirrors, Grown, Proper, Begun, ReasonOf, RefusalOf, Gathers, Spent, Holds;
      ProperStart(fed, BlockDelta(index, Some(d)));
      NotedSnoc(fed, BlockDelta(index, Some(d)));
      var p := wireIndex[WireIndex(index)];
      HoldsHere(order, stops, wireIndex, fed, WireIndex(index));
      HoldsDelta(order[p], fed, index, d);
      IndexedDelta(order, stops, wireIndex, fed, index, d);
      MirrorsDelta(order, stops, emitted, p, d);
      var block := order[p];
      match d {
        case TextPart(t) => chunks := [TextDelta(p, t)];
        case ThinkingPart(t) => chunks := [ReasoningDelta(p, t)];
        case SignaturePart(_) => chunks := [];
        case JsonPart(j) => chunks := [ToolDelta(p, block.id, block.name, j)];
      }
      order := order[p := Grown(block, d)];
      emitted, fed := emitted + chunks, fed + [BlockDelta(index, Some(d))];
    }

    method StopBlock(index: EventIndex) returns (chunks: seq<Chunk>)
      requires Valid() && WireIndex(index) in wireIndex && !order[wireIndex[WireIndex(index)]].closed
      modifies this`order, this`stops, this`emitted, this`fed
      ensures Valid() && emitted == old(emitted) + chunks && fed == old(fed) + [BlockStop(index)]
    {
      hide Mirrors, Ending, Proper, Begun, ReasonOf, RefusalOf, Gathers, Spent;
      NotedSnoc(fed, BlockStop(index));
      ProperStop(order, stops, wireIndex, fed, emitted, index);
      var p := wireIndex[WireIndex(index)];
      IndexedStop(order, stops, wireIndex, fed, index);
      MirrorsStop(order, stops, emitted, p);
      chunks := [End(p, Ending(order[p]))];
      order := order[p := order[p].(closed := true)];
      stops, emitted, fed := stops + [p], emitted + chunks, fed + [BlockStop(index)];
    }

    method Reason(reason: string)
      modifies this`pendingFinish, this`pendingFailure
      ensures reason == "" ==> pendingFinish == old(pendingFinish) && pendingFailure == old(pendingFailure)
      ensures reason != "" ==>
        && pendingFinish == Some(Meaning(reason))
        && pendingFailure == if Meaning(reason) == Failed then Some(Refused(reason)) else old(pendingFailure)
    {
      if reason == "" {
        return;
      }
      if reason == "end_turn" || reason == "stop_sequence" {
        pendingFinish := Some(Stopped);
      } else if reason == "tool_use" {
        pendingFinish := Some(ToolCalls);
      } else if reason == "max_tokens" {
        pendingFinish := Some(MaxTokens);
      } else {
        pendingFinish := Some(Failed);
        pendingFailure := Some(Refused(reason));
      }
    }

    /** Which events the translator takes; anything else is a malformed stream. */
    predicate Accepts(e: Event)
      requires forall w | w in wireIndex :: wireIndex[w] < |order|
      reads this
    {
      && !done
      && match e
         case MessageStart(_) => !started
         case BlockStart(i, c) =>
           started && i.Index? && i.n !in wireIndex && pendingFinish.None? && c.Some? && !c.value.UnsupportedContent?
         case BlockDelta(i, d) =>
           !i.BadIndex? && WireIndex(i) in wireIndex && !order[wireIndex[WireIndex(i)]].closed
           && d.Some? && Fits(order[wireIndex[WireIndex(i)]], d.value)
         case BlockStop(i) => !i.BadIndex? && WireIndex(i) in wireIndex && !order[wireIndex[WireIndex(i)]].closed
         case MessageDelta(i, _, _, _) => !i.BadIndex?
         case MessageStop(i) => !i.BadIndex? && pendingFinish.Some? && forall b | b in order :: b.closed
         case OtherEvent(i) => !i.BadIndex?
    }

    /** Consumes one event; `None` is a malformed stream. */
    method Feed(e: Event) returns (chunks: Option<seq<Chunk>>)
      requires done || Valid()
      modifies this
      ensures old(done) ==> chunks.None?
      ensures !old(done) ==> (chunks.Some? <==> old(WireOk() && Accepts(e)))
      ensures chunks.Some? ==> emitted == old(emitted) + chunks.value && fed == old(fed) + [e]
      ensures chunks.Some? && !e.MessageStop? ==> Valid()
      ensures chunks.Some? && e.MessageStop? ==> Complete() && order == old(order)
    {
      hide Mirrors, Indexed, Grown, Opened, Proper, Begun, ReasonOf, RefusalOf, Spent;
      if done {
        return None;
      }
      WireInside(order, stops, wireIndex, fed);
      NotedSnoc(fed, e);
      match e {
        case MessageStart(u) =>
          if started {
            return None;
          }
          Tally(e);
          started := true;
          Skip(e);
          return Some([]);
        case BlockStart(i, c) =>
          if !started || !i.Index? || i.n in wireIndex || pendingFinish.Some? || c.None? || c.value.UnsupportedContent? {
            return None;
          }
          var cs := StartBlock(i.n, c.value);
          return Some(cs);
        case BlockDelta(i, d) =>
          if i.BadIndex? || WireIndex(i) !in wireIndex || order[wireIndex[WireIndex(i)]].closed {
            return None;
          }
          if d.None? || !Fits(order[wireIndex[WireIndex(i)]], d.value) {
            return None;
          }
          var cs := ApplyDelta(i, d.value);
          return Some(cs);
        case BlockStop(i) =>
          if i.BadIndex? || WireIndex(i) !in wireIndex || order[wireIndex[WireIndex(i)]].closed {
            return None;
          }
          var cs := StopBlock(i);
          return Some(cs);
        case MessageDelta(i, reason, newOutput, newInput) =>
          if i.BadIndex? {
            return None;
          }
          Reason(reason);
          Tally(e);
          Skip(e);
          return Some([]);
        case MessageStop(i) =>
          if i.BadIndex? || pendingFinish.None? || !(forall b | b in order :: b.closed) {
            return None;
          }
          var cs := Settle(e);
          return Some(cs);
        case OtherEvent(i) =>
          if i.BadIndex? {
            return None;
          }
          Skip(e);
          return Some([]);
      }
    }

    /** Counts are overwritten by the ones an event carries. */
    method Tally(e: Event)
      requires usage.(total := Spent(fed).total) == Spent(fed) && (e.MessageStart? || e.MessageDelta?)
      modifies this`usage
      ensures usage.(total := Spent(fed + [e]).total) == Spent(fed + [e])
    {
      SpentSnoc(fed, e);
      if e.MessageStart? {
        if e.usage.Some? {
          usage := usage.(input := e.usage.value.input, output := e.usage.value.output,
                          cacheRead := e.usage.value.cacheRead, cacheWrite := e.usage.value.cacheWrite);
        }
        return;
      }
      if e.newOutput.Some? {
        usage := usage.(output := e.newOutput.value);
      }
      if e.newInput.Some? {
        usage := usage.(input := e.newInput.value);
      }
    }

    ghost predicate WireOk()
      reads this
    {
      forall w | w in wireIndex :: wireIndex[w] < |order|
    }

    ghost method Skip(e: Event)
      requires Holding() && Noted(fed + [e]) && !e.BlockStart? && !e.BlockDelta? && !e.BlockStop?
      modifies this`fed
      ensures Valid() && fed == old(fed) + [e] && emitted == old(emitted) + []
    {
      hide Mirrors, Indexed, Proper;
      IndexedOther(order, stops, wireIndex, fed, e);
      ProperStart(fed, e);
      fed := fed + [e];
    }

    /** A finished stream: every block ended, and the replay state has each block's signature. */
    ghost predicate Complete()
      reads this
    {
      && done && Grammatical(emitted) && Finished(emitted)
      && Indexed(order, stops, wireIndex, fed) && Proper(fed) && Noted(fed)
      && (forall b | b in order :: b.closed) && (Faithful(emitted) <==> EndsWhole(order))
      && |stops| == |order| && |EndBlocks(emitted)| == |order|
      && (forall j | 0 <= j < |order| :: stops[j] < |order| && EndBlocks(emitted)[j] == Ending(order[stops[j]]))
      && (forall j, k | 0 <= j < k < |stops| :: stops[j] != stops[k])
      && var a := Accumulated(emitted);
         && a.closed == EndBlocks(emitted) && a.open == map[]
         && (if order == [] && pendingFinish == Some(Stopped) then a.why == Failed && a.failure == Some(EmptyResponse)
             else
               && Some(a.why) == pendingFinish && a.failure == pendingFailure && a.replay == Some(Signatures(order))
               && a.usage == Some(Spent(fed)))
    }

    method Settle(e: Event) returns (chunks: seq<Chunk>)
      requires Valid() && e.MessageStop? && pendingFinish.Some? && forall b | b in order :: b.closed
      modifies this`usage, this`done, this`emitted, this`fed
      ensures Complete() && emitted == old(emitted) + chunks && fed == old(fed) + [e]
      ensures !(order == [] && pendingFinish == Some(Stopped)) ==> |chunks| == 2 && chunks[0] == Used(Spent(fed))
    {
      hide Mirrors, Indexed, Proper, Begun, ReasonOf, RefusalOf, EndsWhole, Finished, EndBlocks, Grammatical, Faithful, Ending,
           Accumulated;
      IndexedOther(order, stops, wireIndex, fed, e);
      ProperStart(fed, e);
      NotedSnoc(fed, e);
      AllSettled(order, stops, emitted);
      fed := fed + [e];
      done := true;
      if order == [] && pendingFinish == Some(Stopped) {
        chunks := [Finish(Failed, Some(EmptyResponse), None)];
      } else {
        usage := usage.(total := usage.input + usage.output + Count(usage.cacheRead) + Count(usage.cacheWrite));
        chunks := [Used(usage), Finish(pendingFinish.value, pendingFailure, Some(Signatures(order)))];
      }
      Tail(order, stops, emitted, chunks);
      emitted := emitted + chunks;
    }
  }

  function Count(n: Option<nat>): nat {
    match n case None => 0 case Some(c) => c
  }

  lemma WireInside(order: seq<WireBlock>, stops: seq<nat>, wire: map<nat, nat>, fed: seq<Event>)
    requires Indexed(order, stops, wire, fed)
    ensures forall w | w in wire :: wire[w] < |order|
  {}

  lemma {:induction false} NoRepeats(xs: seq<nat>, n: nat)
    requires forall j, k | 0 <= j < k < |xs| :: xs[j] != xs[k]
    requires (forall x | x in xs :: x < n) && forall i: nat | i < n :: i in xs
    ensures |xs| == n
    decreases n
  {
    if n == 0 {
      assert forall j | 0 <= j < |xs| :: xs[j] in xs;
    } else {
      var last: nat := n - 1;
      assert last in xs;
      var i :| 0 <= i < |xs| && xs[i] == last;
      var ys := xs[..i] + xs[i + 1..];
      assert forall j | 0 <= j < |ys| :: ys[j] == xs[if j < i then j else j + 1];
      forall j | 0 <= j < |ys| ensures ys[j] < last {
        assert ys[j] in xs;
      }
      forall m: nat | m < last ensures m in ys {
        assert m in xs;
        var j :| 0 <= j < |xs| && xs[j] == m;
        assert ys[if j < i then j else j - 1] == m;
      }
      NoRepeats(ys, n - 1);
    }
  }

  /** When every block is closed, each has stopped once. */
  lemma AllStopped(order: seq<WireBlock>, stops: seq<nat>)
    requires forall b | b in order :: b.closed
    requires forall j | 0 <= j < |stops| :: stops[j] < |order| && order[stops[j]].closed
    requires forall i: nat | i < |order| && order[i].closed :: i in stops
    requires forall j, k | 0 <= j < k < |stops| :: stops[j] != stops[k]
    ensures |stops| == |order|
  {
    forall i: nat | i < |order| ensures i in stops {
      assert order[i] in order;
    }
    NoRepeats(stops, |order|);
  }

  /** What is settled when every block is closed. */
  lemma AllSettled(order: seq<WireBlock>, stops: seq<nat>, emitted: seq<Chunk>)
    requires Mirrors(order, stops, emitted) && forall b | b in order :: b.closed
    ensures |stops| == |order| && |EndBlocks(emitted)| == |order| && (Faithful(emitted) <==> EndsWhole(order))
    ensures forall j | 0 <= j < |order| :: stops[j] < |order| && EndBlocks(emitted)[j] == Ending(order[stops[j]])
    ensures forall j, k | 0 <= j < k < |stops| :: stops[j] != stops[k]
  {
    hide Mirrored, EndsWhole, Finished, Starts, EndBlocks, Grammatical, Faithful, Ending;
    AllStopped(order, stops);
  }

  /** The last chunks: usage, if any, and the finish. */
  lemma Tail(order: seq<WireBlock>, stops: seq<nat>, emitted: seq<Chunk>, chunks: seq<Chunk>)
    requires Mirrors(order, stops, emitted) && forall b | b in order :: b.closed
    requires 1 <= |chunks| <= 2 && chunks[|chunks| - 1].Finish? && (|chunks| == 2 ==> chunks[0].Used?)
    ensures
      var all := emitted + chunks;
      var a := Accumulated(all);
      && Grammatical(all) && Finished(all) && EndBlocks(all) == EndBlocks(emitted) && (Faithful(all) <==> Faithful(emitted))
      && a.closed == EndBlocks(all) && a.open == map[]
      && (|chunks| == 2 ==> a.usage == Some(chunks[0].usage))
      && a.why == chunks[|chunks| - 1].why && a.failure == chunks[|chunks| - 1].failure && a.replay == chunks[|chunks| - 1].replay
  {
    hide StartedAs, Ended, TextOf, NamesOf, Finished, Starts, EndBlocks, Grammatical, Faithful, Ending;
    var l := |chunks| - 1;
    var most := emitted + chunks[..l];
    assert emitted + chunks == most + [chunks[l]];
    if l == 1 {
      assert chunks[..l] == [chunks[0]];
      SnocWhole(emitted, chunks[0]);
    } else {
      assert most == emitted;
    }
    SnocWhole(most, chunks[l]);
    assert (most + [chunks[l]])[..|most|] == most;
    AccumulatesWhatWasStreamed(emitted + chunks);
    forall i ensures !OpenIn(emitted + chunks, i) {
      TailOpen(order, stops, emitted, chunks, i);
    }
  }

  lemma TailOpen(order: seq<WireBlock>, stops: seq<nat>, emitted: seq<Chunk>, chunks: seq<Chunk>, i: nat)
    requires Mirrors(order, stops, emitted) && forall b | b in order :: b.closed
    requires 1 <= |chunks| <= 2 && chunks[|chunks| - 1].Finish? && (|chunks| == 2 ==> chunks[0].Used?)
    ensures !OpenIn(emitted + chunks, i)
  {
    hide StartedAs, Ended, TextOf, NamesOf, Finished, Starts, EndBlocks, Grammatical, Faithful, Ending;
    Dense(emitted, i);
    assert i < |order| ==> order[i] in order && Mirrored(order[i], emitted, i);
    var l := |chunks| - 1;
    var most := emitted + chunks[..l];
    assert emitted + chunks == most + [chunks[l]];
    if l == 1 {
      assert chunks[..l] == [chunks[0]];
      Snoc(emitted, chunks[0], i);
    } else {
      assert most == emitted;
    }
    Snoc(most, chunks[l], i);
  }

  // ---------------------------------------------------------------------------------------------
  // Rebuilding the assistant turn

  datatype Rebuilt =
    | PlainText(text: string)
    | Thinking(thinking: string, signature: Option<string>)
    | ToolUse(id: string, name: string, arguments: string)

  function SignatureAt(replay: Option<Replay>, index: nat): Option<string> {
    if replay.Some? && index < |replay.value| then replay.value[index] else None
  }

  function RebuiltBlock(b: Block, signature: Option<string>): Rebuilt {
    match b
    case TextBlock(t) => PlainText(t)
    case ReasoningBlock(t) => Thinking(t, signature)
    case ToolCall(id, name, arguments) => ToolUse(id, name, arguments)
  }

  /** The request's content for an assistant turn; none when a tool call's arguments are not an object. */
  method AssistantBlocks(content: seq<Block>, replay: Option<Replay>, isObject: string -> bool) returns (blocks: Option<seq<Rebuilt>>)
    ensures blocks.None? <==> exists i :: 0 <= i < |content| && content[i].ToolCall? && !isObject(content[i].arguments)
    ensures blocks.Some? ==>
      |blocks.value| == |content|
      && forall i | 0 <= i < |content| :: blocks.value[i] == RebuiltBlock(content[i], SignatureAt(replay, i))
  {
    var out := [];
    var index := 0;
    while index < |content|
      invariant 0 <= index <= |content| && |out| == index
      invariant forall i | 0 <= i < index :: !(content[i].ToolCall? && !isObject(content[i].arguments))
      invariant forall i | 0 <= i < index :: out[i] == RebuiltBlock(content[i], SignatureAt(replay, i))
    {
      match content[index] {
        case TextBlock(t) => out := out + [PlainText(t)];
        case ReasoningBlock(t) => out := out + [Thinking(t, SignatureAt(replay, index))];
        case ToolCall(id, name, arguments) =>
          if !isObject(arguments) {
            return None;
          }
          out := out + [ToolUse(id, name, arguments)];
      }
      index := index + 1;
    }
    return Some(out);
  }

  /** Every thinking block of the stream comes back with its own signature. */
  ghost predicate SignedRight(order: seq<WireBlock>, stops: seq<nat>)
    requires |stops| == |order| && forall j | 0 <= j < |stops| :: stops[j] < |order|
  {
    forall j | 0 <= j < |order| && order[stops[j]].kind == ReasoningKind ::
      RebuiltBlock(Ending(order[stops[j]]), SignatureAt(Some(Signatures(order)), j))
        == Thinking(order[stops[j]].text, Some(order[stops[j]].signature))
  }

  /** Signatures are kept in start order and blocks in stop order. With signatures that differ, the
      rebuilt turn is right exactly when every thinking block stops in the place it started. */
  lemma ReplayExact(order: seq<WireBlock>, stops: seq<nat>)
    requires |stops| == |order| && forall j | 0 <= j < |stops| :: stops[j] < |order|
    requires forall p, q | 0 <= p < q < |order| && order[p].kind == order[q].kind == ReasoningKind :: order[p].signature != order[q].signature
    ensures SignedRight(order, stops) <==> forall j | 0 <= j < |order| && order[stops[j]].kind == ReasoningKind :: stops[j] == j
  {
    forall j | 0 <= j < |order| && order[stops[j]].kind == ReasoningKind
      ensures SignatureAt(Some(Signatures(order)), j) == Some(order[stops[j]].signature) <==> stops[j] == j
    {}
  }

  /** Replay round trip: when each block stops before the next one starts, every thinking block comes
      back, in place, with exactly its streamed text and its own concatenated signature. */
  lemma ReplayRoundTrip(order: seq<WireBlock>, stops: seq<nat>, wire: map<nat, nat>, fed: seq<Event>)
    requires Indexed(order, stops, wire, fed) && Proper(fed) && Sequential(fed)
    requires |stops| == |order|
    ensures forall j | 0 <= j < |order| :: stops[j] == j
    ensures SignedRight(order, stops)
    ensures forall j | 0 <= j < |order| :: BlockAt(fed, StartsOf(fed)[j]) == Some(order[j])
    ensures forall j | 0 <= j < |order| :: Holds(order[j], fed, StartsOf(fed)[j])
    ensures forall j | 0 <= j < |order| && order[j].kind == ReasoningKind ::
      SignatureAt(Some(Signatures(order)), j) == Some(Gathered(fed, StartsOf(fed)[j], Signature))
  {
    hide StartsOf, StopsOf, BlockAt, Gathered, KindAt;
    SequentialStops(fed);
    forall j | 0 <= j < |order| ensures stops[j] == j && BlockAt(fed, StartsOf(fed)[j]) == Some(order[j]) {
      assert StopsOf(fed)[j] == StartsOf(fed)[j];
      assert StartsOf(fed)[stops[j]] in wire && StartsOf(fed)[j] in wire;
    }
  }

  // ---------------------------------------------------------------------------------------------
  // Which event streams are accepted

  ghost predicate Halted(es: seq<Event>) {
    es != [] && (es[|es| - 1].MessageStop? || Halted(es[..|es| - 1]))
  }

  ghost predicate OpenAt(es: seq<Event>, i: EventIndex) {
    !i.BadIndex? && BlockAt(es, WireIndex(i)).Some? && !BlockAt(es, WireIndex(i)).value.closed
  }

  /** Whether an event may follow, from the events alone. */
  ghost predicate Acceptable(es: seq<Event>, e: Event) {
    && !Halted(es)
    && match e
       case MessageStart(_) => !Begun(es)
       case BlockStart(i, c) =>
         Begun(es) && i.Index? && i.n !in StartsOf(es) && ReasonOf(es).None? && c.Some? && !c.value.UnsupportedContent?
       case BlockDelta(i, d) => OpenAt(es, i) && d.Some? && Fits(BlockAt(es, WireIndex(i)).value, d.value)
       case BlockStop(i) => OpenAt(es, i)
       case MessageDelta(i, _, _, _) => !i.BadIndex?
       case MessageStop(i) =>
         !i.BadIndex? && ReasonOf(es).Some? && forall w | w in StartsOf(es) :: BlockAt(es, w).Some? && BlockAt(es, w).value.closed
       case OtherEvent(i) => !i.BadIndex?
  }

  ghost predicate Legal(es: seq<Event>) {
    es == [] || (Legal(es[..|es| - 1]) && Acceptable(es[..|es| - 1], es[|es| - 1]))
  }

  lemma LegalSnoc(es: seq<Event>, e: Event)
    ensures Legal(es + [e]) <==> Legal(es) && Acceptable(es, e)
    ensures Halted(es + [e]) <==> e.MessageStop? || Halted(es)
  {
    assert (es + [e])[..|es|] == es;
  }

  /** The translator takes an event exactly when the events before it allow it. */
  lemma AcceptsLegal(t: Translator, e: Event)
    requires t.Valid() && !Halted(t.fed)
    ensures t.WireOk() && (t.Accepts(e) <==> Acceptable(t.fed, e))
  {
    hide Mirrors, Proper, Begun, ReasonOf, RefusalOf, StartsOf, StopsOf, BlockAt, Fits, Halted, Gathers;
    forall w: nat ensures w in t.wireIndex <==> w in StartsOf(t.fed) && BlockAt(t.fed, w).Some? {
      if w in t.wireIndex {
        assert StartsOf(t.fed)[t.wireIndex[w]] == w;
      }
    }
    forall w: nat | w !in t.wireIndex ensures BlockAt(t.fed, w) == None {
      if w !in StartsOf(t.fed) {
        Unstarted(t.fed, w);
      }
    }
    if forall w | w in StartsOf(t.fed) :: BlockAt(t.fed, w).Some? && BlockAt(t.fed, w).value.closed {
      forall b | b in t.order ensures b.closed {
        var p :| 0 <= p < |t.order| && t.order[p] == b;
        assert StartsOf(t.fed)[p] in StartsOf(t.fed);
      }
    }
  }

  lemma {:induction false} LegalPrefix(es: seq<Event>, i: nat)
    requires Legal(es) && i < |es|
    ensures Legal(es[..i]) && Acceptable(es[..i], es[i]) && !Halted(es[..i])
  {
    var l := |es| - 1;
    if i < l {
      LegalPrefix(es[..l], i);
      assert es[..l][..i] == es[..i] && es[..l][i] == es[i];
    }
  }

  /** A legal stream plays to its end. */
  method Play(es: seq<Event>) returns (t: Translator)
    requires Legal(es)
    ensures fresh(t) && t.fed == es && (if Halted(es) then t.Complete() else t.Valid())
  {
    hide Mirrors, Indexed, Proper, Translator.Noted, Acceptable;
    t := new Translator();
    for i := 0 to |es|
      invariant fresh(t) && t.fed == es[..i] && Legal(es[..i]) && (if Halted(es[..i]) then t.Complete() else t.Valid())
    {
      LegalPrefix(es, i);
      AcceptsLegal(t, es[i]);
      var chunks := t.Feed(es[i]);
      assert es[..i + 1] == es[..i] + [es[i]];
      LegalSnoc(es[..i], es[i]);
    }
    assert es[..|es|] == es;
  }

  // ---------------------------------------------------------------------------------------------
  // What is streamed and what is delivered

  /** Each block ends with exactly its deltas, unless a tool's arguments came with its start and no delta
      followed: such a block ends with arguments that no delta carried. */
  lemma EndsFaithful(t: Translator)
    requires t.Valid() || t.Complete()
    ensures Faithful(t.emitted) <==>
      forall w | w in StartsOf(t.fed) && BlockAt(t.fed, w).Some? && BlockAt(t.fed, w).value.closed :: Whole(BlockAt(t.fed, w).value)
  {
    hide Proper, Mirrored, Grammatical, Faithful, Starts, EndBlocks, StartsOf, StopsOf, BlockAt, Whole, Finished, Accumulated, Indexed,
         EndsWhole;
    WholeByEvents(t.order, t.stops, t.wireIndex, t.fed);
  }

  lemma WholeByEvents(order: seq<WireBlock>, stops: seq<nat>, wire: map<nat, nat>, fed: seq<Event>)
    requires Indexed(order, stops, wire, fed)
    ensures EndsWhole(order) <==>
      forall w | w in StartsOf(fed) && BlockAt(fed, w).Some? && BlockAt(fed, w).value.closed :: Whole(BlockAt(fed, w).value)
  {
    hide StartsOf, StopsOf, BlockAt, Whole;
    if forall w | w in StartsOf(fed) && BlockAt(fed, w).Some? && BlockAt(fed, w).value.closed :: Whole(BlockAt(fed, w).value) {
      forall i | 0 <= i < |order| && order[i].closed ensures Whole(order[i]) {
        assert StartsOf(fed)[i] in StartsOf(fed) && StartsOf(fed)[i] in wire;
      }
    }
    if EndsWhole(order) {
      forall w | w in StartsOf(fed) && BlockAt(fed, w).Some? && BlockAt(fed, w).value.closed ensures Whole(BlockAt(fed, w).value) {
        var p :| 0 <= p < |StartsOf(fed)| && StartsOf(fed)[p] == w;
        assert w in wire;
      }
    }
  }

  /** A tool use whose whole input comes with its start. */
  function InputAtStart(input: string): seq<Event> {
    [MessageStart(None)] + [BlockStart(Index(0), Some(ToolContent("id", "name", input)))] + [BlockStop(Index(0))]
    + [MessageDelta(NoIndex, "tool_use", None, None)] + [MessageStop(NoIndex)]
  }

  lemma InputIsLegal(input: string)
    ensures Legal(InputAtStart(input)) && Halted(InputAtStart(input))
    ensures StartsOf(InputAtStart(input)) == [0]
    ensures BlockAt(InputAtStart(input), 0) == Some(WireBlock(ToolKind, input, "id", "name", "", "", true))
  {
    hide Legal, Halted, Begun, ReasonOf, RefusalOf, StartsOf, StopsOf, BlockAt;
    var e0, e1, e2 := MessageStart(None), BlockStart(Index(0), Some(ToolContent("id", "name", input))), BlockStop(Index(0));
    var e3, e4 := MessageDelta(NoIndex, "tool_use", None, None), MessageStop(NoIndex);
    NothingRead();
    Reads([], e0, 0);
    Reads([] + [e0], e1, 0);
    Reads([] + [e0] + [e1], e2, 0);
    Reads([] + [e0] + [e1] + [e2], e3, 0);
    Reads([] + [e0] + [e1] + [e2] + [e3], e4, 0);
    assert [] + [e0] + [e1] + [e2] + [e3] + [e4] == InputAtStart(input);
  }

  /** Played, such a stream is not faithful unless the input is empty. */
  method InputIsNotStreamed(input: string) returns (t: Translator)
    ensures fresh(t) && t.Complete() && t.fed == InputAtStart(input)
    ensures Faithful(t.emitted) <==> input == ""
  {
    InputIsLegal(input);
    t := Play(InputAtStart(input));
    InputUnstreamed(t, input);
  }

  lemma InputUnstreamed(t: Translator, input: string)
    requires t.Complete() && t.fed == InputAtStart(input)
    ensures Faithful(t.emitted) <==> input == ""
  {
    hide Translator.Complete, Faithful, StartsOf, BlockAt;
    InputIsLegal(input);
    EndsFaithful(t);
  }

  lemma NothingRead()
    ensures Legal([]) && !Halted([]) && !Begun([]) && ReasonOf([]) == None && RefusalOf([]) == None
    ensures StartsOf([]) == [] && StopsOf([]) == [] && forall w :: BlockAt([], w) == None
  {}

  /** What one more event changes. */
  lemma Reads(es: seq<Event>, e: Event, w: nat)
    ensures Legal(es + [e]) <==> Legal(es) && Acceptable(es, e)
    ensures Halted(es + [e]) <==> e.MessageStop? || Halted(es)
    ensures Begun(es + [e]) <==> e.MessageStart? || Begun(es)
    ensures ReasonOf(es + [e]) == if e.MessageDelta? && e.reason != "" then Some(Meaning(e.reason)) else ReasonOf(es)
    ensures RefusalOf(es + [e]) == if IsRefusal(e) then Some(Refused(e.reason)) else RefusalOf(es)
    ensures StartsOf(es + [e]) == StartsOf(es) + if e.BlockStart? then [WireIndex(e.index)] else []
    ensures StopsOf(es + [e]) == StopsOf(es) + if e.BlockStop? then [WireIndex(e.index)] else []
    ensures BlockAt(es + [e], w) ==
      var rest := BlockAt(es, w);
      match e
      case BlockStart(i, c) => if WireIndex(i) == w && c.Some? && !c.value.UnsupportedContent? then Some(Opened(c.value)) else rest
      case BlockDelta(i, d) => if WireIndex(i) == w && rest.Some? && d.Some? then Some(Grown(rest.value, d.value)) else rest
      case BlockStop(i) => if WireIndex(i) == w && rest.Some? then Some(rest.value.(closed := true)) else rest
      case _ => rest
  {
    LegalSnoc(es, e);
    NotedSnoc(es, e);
    EventSnoc(es, e, w);
  }

  /** Stopping at any point, the accumulator has the blocks that ended, as they ended, and every other block
      as far as its deltas go; for a tool whose input came with its start that is not what its end would
      have delivered. */
  lemma InterruptedDelivers(t: Translator, i: nat)
    requires t.Valid() && i < |t.order|
    ensures Accumulated(t.emitted).closed == EndBlocks(t.emitted)
    ensures i in Accumulated(t.emitted).open <==> !t.order[i].closed
    ensures !t.order[i].closed ==>
      var b := t.order[i];
      && Close(Accumulated(t.emitted).open[i]) == (match b.kind
                                                   case TextKind => TextBlock(b.text)
                                                   case ReasoningKind => ReasoningBlock(b.text)
                                                   case ToolKind => ToolCall(b.id, b.name, b.json))
      && (Close(Accumulated(t.emitted).open[i]) == Ending(b) <==> Whole(b))
  {
    hide StartedAs, Ended, TextOf, NamesOf, Finished, Starts, EndBlocks, Grammatical, Faithful, Accumulated, Indexed, Proper, EndsWhole;
    AccumulatesWhatWasStreamed(t.emitted);
    Dense(t.emitted, i);
    assert Mirrored(t.order[i], t.emitted, i);
  }

  // ---------------------------------------------------------------------------------------------
  // The finish contract

  /** The stream contract sets a failure exactly on a failed finish. This translator, too, keeps a refusal
      that a known stop reason follows: the contract holds exactly when nothing was streamed before a
      plain stop, the last reason is a refusal, or none was. */
  lemma FinishKept(t: Translator)
    requires t.Complete()
    ensures
      var a := Accumulated(t.emitted);
      (a.failure.Some? <==> a.why == Failed) <==>
        (StartsOf(t.fed) == [] && ReasonOf(t.fed) == Some(Stopped))
        || ReasonOf(t.fed) == Some(Failed)
        || forall i | 0 <= i < |t.fed| :: !IsRefusal(t.fed[i])
  {
    hide Proper, Accumulated, Grammatical, Faithful, EndsWhole, EndBlocks, Finished, StartsOf, StopsOf, BlockAt, Begun, ReasonOf, RefusalOf,
         IsRefusal;
    RefusalNoted(t.fed);
  }

  /** A refused block of text that then stops plainly. */
  function StaleRefusal(reason: string): seq<Event> {
    [MessageStart(None)] + [BlockStart(Index(0), Some(TextContent("text")))] + [BlockStop(Index(0))]
    + [MessageDelta(NoIndex, reason, None, None)] + [MessageDelta(NoIndex, "end_turn", None, None)] + [MessageStop(NoIndex)]
  }

  lemma StaleIsLegal(reason: string)
    requires reason != ""
    ensures Legal(StaleRefusal(reason)) && Halted(StaleRefusal(reason)) && StartsOf(StaleRefusal(reason)) == [0]
    ensures ReasonOf(StaleRefusal(reason)) == Some(Stopped)
  {
    hide Legal, Halted, Begun, ReasonOf, RefusalOf, StartsOf, StopsOf, BlockAt;
    var e0, e1, e2 := MessageStart(None), BlockStart(Index(0), Some(TextContent("text"))), BlockStop(Index(0));
    var e3, e4, e5 := MessageDelta(NoIndex, reason, None, None), MessageDelta(NoIndex, "end_turn", None, None), MessageStop(NoIndex);
    NothingRead();
    Reads([], e0, 0);
    Reads([] + [e0], e1, 0);
    Reads([] + [e0] + [e1], e2, 0);
    Reads([] + [e0] + [e1] + [e2], e3, 0);
    Reads([] + [e0] + [e1] + [e2] + [e3], e4, 0);
    Reads([] + [e0] + [e1] + [e2] + [e3] + [e4], e5, 0);
    assert [] + [e0] + [e1] + [e2] + [e3] + [e4] + [e5] == StaleRefusal(reason);
  }

  /** Played, it finishes as a plain stop that carries a failure. */
  method RefusalOutlivesItsReason(reason: string) returns (t: Translator)
    requires reason != "" && Meaning(reason) == Failed
    ensures fresh(t) && t.Complete() && t.fed == StaleRefusal(reason)
    ensures Accumulated(t.emitted).why == Stopped && Accumulated(t.emitted).failure.Some?
  {
    StaleIsLegal(reason);
    t := Play(StaleRefusal(reason));
    RefusalOutlived(t, reason);
  }

  lemma RefusalOutlived(t: Translator, reason: string)
    requires t.Complete() && t.fed == StaleRefusal(reason) && reason != "" && Meaning(reason) == Failed
    ensures Accumulated(t.emitted).why == Stopped && Accumulated(t.emitted).failure.Some?
  {
    hide Proper, Accumulated, Grammatical, Faithful, EndsWhole, EndBlocks, Finished, StartsOf, StopsOf, BlockAt, Begun, ReasonOf, RefusalOf;
    StaleIsLegal(reason);
    RefusalNoted(t.fed);
    assert IsRefusal(t.fed[3]);
  }

  // ---------------------------------------------------------------------------------------------
  // The whole path of a turn

  /** A block as the next request should have it, from the events alone. */
  ghost function Said(es: seq<Event>, w: nat): Rebuilt
    requires KindAt(es, w).Some?
  {
    match KindAt(es, w).value
    case TextKind => PlainText(Gathered(es, w, Words))
    case ReasoningKind => Thinking(Gathered(es, w, Words), Some(Gathered(es, w, Signature)))
    case ToolKind =>
      ToolUse(Gathered(es, w, Identity), Gathered(es, w, Name),
              if Gathered(es, w, Input) == "" then Gathered(es, w, StartInput) else Gathered(es, w, Input))
  }

  /** What a finished, sequential stream accumulates, rebuilt with the replay state it keeps, is the
      stream's own blocks in start order. */
  lemma TurnRebuilt(t: Translator, j: nat)
    requires t.Complete() && Sequential(t.fed) && t.order != [] && j < |t.order|
    ensures
      var a, b := Accumulated(t.emitted), BlockAt(t.fed, StartsOf(t.fed)[j]);
      && |a.closed| == |t.order| && b == Some(t.order[j]) && a.closed[j] == Ending(b.value)
      && KindAt(t.fed, StartsOf(t.fed)[j]) == Some(b.value.kind)
      && RebuiltBlock(a.closed[j], SignatureAt(a.replay, j)) == Said(t.fed, StartsOf(t.fed)[j])
  {
    hide Accumulated, EndBlocks, Grammatical, Finished, Faithful, Proper, Sequential, StartsOf, StopsOf, BlockAt, EndsWhole,
         Begun, ReasonOf, RefusalOf, Gathers;
    ReplayRoundTrip(t.order, t.stops, t.wireIndex, t.fed);
  }

  /** Accumulates a finished, sequential stream, commits the step and rebuilds the turn for the next
      request. A refused stream commits an attempt and no turn; otherwise the turn is the stream's own
      blocks in start order, unless some tool's arguments are no object. */
  method CommitAndRebuild(t: Translator, chunks: seq<Chunk>, maxTokensAsSuccess: bool, isObject: string -> bool)
      returns (turn: Option<seq<Rebuilt>>)
    requires t.Complete() && Sequential(t.fed) && t.order != [] && chunks == t.emitted
    ensures turn.None? <==>
      (exists i :: 0 <= i < |t.fed| && IsRefusal(t.fed[i]))
      || (exists w :: w in StartsOf(t.fed) && KindAt(t.fed, w) == Some(ToolKind) && !isObject(Said(t.fed, w).arguments))
    ensures turn.Some? ==>
      |turn.value| == |StartsOf(t.fed)|
      && forall j | 0 <= j < |turn.value| ::
           KindAt(t.fed, StartsOf(t.fed)[j]).Some? && turn.value[j] == Said(t.fed, StartsOf(t.fed)[j])
  {
    hide Accumulated, StartsOf, BlockAt, RefusalOf, Gathered, KindAt, RebuiltBlock, Ending, SignatureAt, Sequential,
         Translator.Complete, IsRefusal;
    var acc := Accumulate(chunks);
    TurnFacts(t);
    RefusalNoted(t.fed);
    var committed, terminal := acc.Commit(maxTokensAsSuccess);
    if !committed.Message? {
      return None;
    }
    turn := AssistantBlocks(committed.blocks, committed.replay, isObject);
    forall j | 0 <= j < |t.order|
      ensures committed.blocks[j].ToolCall? <==> KindAt(t.fed, StartsOf(t.fed)[j]) == Some(ToolKind)
      ensures committed.blocks[j].ToolCall? ==> Said(t.fed, StartsOf(t.fed)[j]).arguments == committed.blocks[j].arguments
    {
      ToolEnds(t.order[j]);
      ArgumentsKept(committed.blocks[j], SignatureAt(committed.replay, j));
    }
  }

  method Accumulate(chunks: seq<Chunk>) returns (acc: StepAccumulator)
    ensures fresh(acc) && acc.State() == Accumulated(chunks)
  {
    hide Accumulated;
    acc := new StepAccumulator();
    NoneAccumulated(chunks);
    for i := 0 to |chunks|
      invariant fresh(acc) && acc.State() == Accumulated(chunks[..i])
    {
      acc.Push(chunks[i]);
      AccumulatedNext(chunks, i);
    }
    assert chunks[..|chunks|] == chunks;
  }

  lemma ArgumentsKept(b: Block, signature: Option<string>)
    ensures b.ToolCall? ==> RebuiltBlock(b, signature) == ToolUse(b.id, b.name, b.arguments)
  {}

  lemma ToolEnds(b: WireBlock)
    ensures Ending(b).ToolCall? <==> b.kind == ToolKind
  {}

  lemma TurnFacts(t: Translator)
    requires t.Complete() && Sequential(t.fed) && t.order != []
    ensures
      var a := Accumulated(t.emitted);
      && a.why != Aborted && a.failure == RefusalOf(t.fed) && |a.closed| == |t.order| == |StartsOf(t.fed)|
      && forall j | 0 <= j < |t.order| ::
           && a.closed[j] == Ending(t.order[j]) && BlockAt(t.fed, StartsOf(t.fed)[j]) == Some(t.order[j])
           && KindAt(t.fed, StartsOf(t.fed)[j]) == Some(t.order[j].kind)
           && RebuiltBlock(a.closed[j], SignatureAt(a.replay, j)) == Said(t.fed, StartsOf(t.fed)[j])
  {
    hide Accumulated, EndBlocks, Grammatical, Finished, Faithful, Proper, Sequential, StartsOf, StopsOf, BlockAt, EndsWhole,
         Begun, ReasonOf, RefusalOf, Gathered, KindAt, RebuiltBlock, Ending, Gathers;
    RefusalNoted(t.fed);
    forall j | 0 <= j < |t.order|
      ensures Accumulated(t.emitted).closed[j] == Ending(t.order[j]) && BlockAt(t.fed, StartsOf(t.fed)[j]) == Some(t.order[j])
      ensures KindAt(t.fed, StartsOf(t.fed)[j]) == Some(t.order[j].kind)
      ensures RebuiltBlock(Accumulated(t.emitted).closed[j], SignatureAt(Accumulated(t.emitted).replay, j)) == Said(t.fed, StartsOf(t.fed)[j])
    {
      TurnRebuilt(t, j);
    }
  }

  lemma AccumulatedNext(chunks: seq<Chunk>, i: nat)
    requires i < |chunks|
    ensures Accumulated(chunks[..i + 1]) == Pushed(Accumulated(chunks[..i]), chunks[i])
  {
    assert chunks[..i + 1][..i] == chunks[..i];
  }

  lemma NoneAccumulated(chunks: seq<Chunk>)
    ensures Accumulated(chunks[..0]) == EMPTY
  {}

  // ---------------------------------------------------------------------------------------------
  // Overlapping blocks

  /** Two thinking blocks that overlap, the second stopping first. */
  function Overlap(a: string, x: string, b: string, y: string): seq<Event> {
    [MessageStart(None)] + [BlockStart(Index(0), Some(ThinkingContent(a, x)))]
    + [BlockStart(Index(1), Some(ThinkingContent(b, y)))] + [BlockStop(Index(1))] + [BlockStop(Index(0))]
    + [MessageDelta(NoIndex, "end_turn", None, None)] + [MessageStop(NoIndex)]
  }

  lemma OverlapIsLegal(a: string, x: string, b: string, y: string)
    ensures Legal(Overlap(a, x, b, y)) && Halted(Overlap(a, x, b, y))
    ensures StartsOf(Overlap(a, x, b, y)) == [0, 1] && StopsOf(Overlap(a, x, b, y)) == [1, 0]
    ensures BlockAt(Overlap(a, x, b, y), 0) == Some(WireBlock(ReasoningKind, a, "", "", "", x, true))
    ensures BlockAt(Overlap(a, x, b, y), 1) == Some(WireBlock(ReasoningKind, b, "", "", "", y, true))
  {
    hide Legal, Halted, Begun, ReasonOf, RefusalOf, StartsOf, StopsOf, BlockAt;
    var e3, e4, e5, e6 := BlockStop(Index(1)), BlockStop(Index(0)), MessageDelta(NoIndex, "end_turn", None, None), MessageStop(NoIndex);
    var es := OverlapOpens(a, x, b, y);
    Reads(es, e3, 0);
    Reads(es, e3, 1);
    Reads(es + [e3], e4, 0);
    Reads(es + [e3], e4, 1);
    Reads(es + [e3] + [e4], e5, 0);
    Reads(es + [e3] + [e4], e5, 1);
    Reads(es + [e3] + [e4] + [e5], e6, 0);
    Reads(es + [e3] + [e4] + [e5], e6, 1);
    assert es + [e3] + [e4] + [e5] + [e6] == Overlap(a, x, b, y);
  }

  /** The stream up to where both blocks are open. */
  lemma OverlapOpens(a: string, x: string, b: string, y: string) returns (es: seq<Event>)
    ensures es == Overlap(a, x, b, y)[..3]
    ensures Legal(es) && !Halted(es) && Begun(es) && StartsOf(es) == [0, 1] && StopsOf(es) == []
    ensures BlockAt(es, 0) == Some(WireBlock(ReasoningKind, a, "", "", "", x, false))
    ensures BlockAt(es, 1) == Some(WireBlock(ReasoningKind, b, "", "", "", y, false))
  {
    hide Legal, Halted, Begun, ReasonOf, RefusalOf, StartsOf, StopsOf, BlockAt;
    var e0, e1 := MessageStart(None), BlockStart(Index(0), Some(ThinkingContent(a, x)));
    var e2 := BlockStart(Index(1), Some(ThinkingContent(b, y)));
    NothingRead();
    Reads([], e0, 0);
    Reads([], e0, 1);
    Reads([] + [e0], e1, 0);
    Reads([] + [e0], e1, 1);
    Reads([] + [e0] + [e1], e2, 0);
    Reads([] + [e0] + [e1], e2, 1);
    es := [] + [e0] + [e1] + [e2];
  }

  /** The sequential case is needed: played, the turn is accepted, and each thinking block comes back with
      the other's signature. */
  method OverlappingBlocksSwapSignatures(a: string, x: string, b: string, y: string) returns (t: Translator)
    ensures fresh(t) && t.Complete() && t.fed == Overlap(a, x, b, y)
    ensures |Accumulated(t.emitted).closed| == 2
    ensures RebuiltBlock(Accumulated(t.emitted).closed[0], SignatureAt(Accumulated(t.emitted).replay, 0)) == Thinking(b, Some(x))
    ensures RebuiltBlock(Accumulated(t.emitted).closed[1], SignatureAt(Accumulated(t.emitted).replay, 1)) == Thinking(a, Some(y))
    ensures SignedRight(t.order, t.stops) <==> x == y
  {
    hide Accumulated, SignedRight, SignatureAt;
    OverlapIsLegal(a, x, b, y);
    t := Play(Overlap(a, x, b, y));
    SignaturesSwapped(t, a, x, b, y);
  }

  lemma SignaturesSwapped(t: Translator, a: string, x: string, b: string, y: string)
    requires t.Complete() && t.fed == Overlap(a, x, b, y)
    ensures t.order == [WireBlock(ReasoningKind, a, "", "", "", x, true), WireBlock(ReasoningKind, b, "", "", "", y, true)]
    ensures |Accumulated(t.emitted).closed| == 2
    ensures RebuiltBlock(Accumulated(t.emitted).closed[0], SignatureAt(Accumulated(t.emitted).replay, 0)) == Thinking(b, Some(x))
    ensures RebuiltBlock(Accumulated(t.emitted).closed[1], SignatureAt(Accumulated(t.emitted).replay, 1)) == Thinking(a, Some(y))
    ensures SignedRight(t.order, t.stops) <==> x == y
  {
    hide Accumulated, EndBlocks, Grammatical, Finished, Faithful, Proper, StartsOf, StopsOf, BlockAt, EndsWhole, Begun, ReasonOf, RefusalOf,
         Indexed, Overlap, Spent;
    OverlapOrder(t.order, t.stops, t.wireIndex, a, x, b, y);
    assert t.pendingFinish == Some(Stopped) by { OverlapReason(a, x, b, y); }
  }

  lemma OverlapReason(a: string, x: string, b: string, y: string)
    ensures ReasonOf(Overlap(a, x, b, y)) == Some(Stopped)
  {
    hide Begun, RefusalOf, Spent;
    var e5, e6 := MessageDelta(NoIndex, "end_turn", None, None), MessageStop(NoIndex);
    var es := Overlap(a, x, b, y)[..5];
    NotedSnoc(es, e5);
    NotedSnoc(es + [e5], e6);
    assert es + [e5] + [e6] == Overlap(a, x, b, y);
  }

  /** Where the two blocks start and stop. */
  lemma OverlapOrder(order: seq<WireBlock>, stops: seq<nat>, wire: map<nat, nat>, a: string, x: string, b: string, y: string)
    requires Indexed(order, stops, wire, Overlap(a, x, b, y))
    ensures order == [WireBlock(ReasoningKind, a, "", "", "", x, true), WireBlock(ReasoningKind, b, "", "", "", y, true)]
    ensures stops == [1, 0]
  {
    hide StartsOf, StopsOf, BlockAt, Gathers, Overlap;
    OverlapIsLegal(a, x, b, y);
    var es := Overlap(a, x, b, y);
    assert StartsOf(es)[0] in wire && StartsOf(es)[1] in wire;
  }
}
