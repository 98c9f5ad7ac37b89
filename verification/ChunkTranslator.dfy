/**
  The chat-completions wire translator (plugins/llm-compat/src/translate.cpp:293-452): one open block
  for the text, one for the reasoning, one per tool-call index; finish reason and usage are deferred.
 */
module ChunkTranslator {
  import opened Basics
  import opened Streams
  import opened Accumulator

  // ---------------------------------------------------------------------------------------------
  // Wire payloads, reduced to what the translator reads

  datatype WireIndex = Missing | Number(n: int) | NotANumber

  /** An absent, mistyped or empty string field reads as the empty string. */
  datatype Call = NotACall | Call(index: WireIndex, id: string, name: string, arguments: string)

  datatype Choice = NotAChoice | Choice(reasoning: string, content: string, calls: seq<Call>, reason: Option<string>)

  datatype WireUsage = NoUsage | BadUsage | WireUsage(prompt: nat, completion: nat, cached: Option<nat>, reasoning: Option<nat>)

  datatype Payload = NotAnObject | Payload(choices: seq<Choice>, usage: WireUsage)

  /** What a payload says, piece by piece, in the order it is read. */
  datatype Piece =
    | ReasoningPiece(text: string)
    | ContentPiece(text: string)
    | CallPiece(wire: int, id: string, name: string, arguments: string)
    | ReasonPiece(reason: string)

  function WireOf(i: WireIndex): int {
    if i.Number? then i.n else 0
  }

  function CallPieces(calls: seq<Call>): seq<Piece> {
    if calls == [] then []
    else
      var c := calls[|calls| - 1];
      CallPieces(calls[..|calls| - 1]) + if c.Call? then [CallPiece(WireOf(c.index), c.id, c.name, c.arguments)] else []
  }

  function TextPieces(c: Choice): seq<Piece>
    requires c.Choice?
  {
    (if c.reasoning != "" then [ReasoningPiece(c.reasoning)] else [])
    + (if c.content != "" then [ContentPiece(c.content)] else [])
  }

  function DeltaPieces(c: Choice): seq<Piece>
    requires c.Choice?
  {
    TextPieces(c) + CallPieces(c.calls)
  }

  function ChoicePieces(c: Choice): seq<Piece> {
    if c.NotAChoice? then []
    else DeltaPieces(c) + if c.reason.Some? then [ReasonPiece(c.reason.value)] else []
  }

  function Pieces(choices: seq<Choice>): seq<Piece> {
    if choices == [] then [] else Pieces(choices[..|choices| - 1]) + ChoicePieces(choices[|choices| - 1])
  }

  predicate WellTyped(c: Choice) {
    c.Choice? ==> forall i | 0 <= i < |c.calls| :: c.calls[i].Call? ==> c.calls[i].index != NotANumber
  }

  /** The payloads the translator accepts. */
  predicate Readable(p: Payload) {
    p.Payload? && p.usage != BadUsage && forall i | 0 <= i < |p.choices| :: WellTyped(p.choices[i])
  }

  // ---------------------------------------------------------------------------------------------
  // What a stream of pieces amounts to

  ghost function ContentText(ps: seq<Piece>): string {
    if ps == [] then "" else ContentText(ps[..|ps| - 1]) + if ps[|ps| - 1].ContentPiece? then ps[|ps| - 1].text else ""
  }

  ghost function ReasoningText(ps: seq<Piece>): string {
    if ps == [] then "" else ReasoningText(ps[..|ps| - 1]) + if ps[|ps| - 1].ReasoningPiece? then ps[|ps| - 1].text else ""
  }

  ghost predicate Called(ps: seq<Piece>, w: int) {
    ps != [] && ((ps[|ps| - 1].CallPiece? && ps[|ps| - 1].wire == w) || Called(ps[..|ps| - 1], w))
  }

  /** The tool call at a wire index: last identity, last name, all argument fragments. */
  ghost function ToolOf(ps: seq<Piece>, w: int): OpenBlock {
    if ps == [] then OpenBlock(ToolKind, "", "", "")
    else
      var rest, p := ToolOf(ps[..|ps| - 1], w), ps[|ps| - 1];
      if p.CallPiece? && p.wire == w then
        OpenBlock(ToolKind, rest.text + p.arguments, if p.id != "" then p.id else rest.id, if p.name != "" then p.name else rest.name)
      else rest
  }

  function Meaning(reason: string): (why: Why)
    ensures why == Stopped <==> reason == "stop"
    ensures why == ToolCalls <==> reason == "tool_calls"
    ensures why == MaxTokens <==> reason == "length"
    ensures why != Aborted
  {
    if reason == "stop" then Stopped else if reason == "tool_calls" then ToolCalls
    else if reason == "length" then MaxTokens else Failed
  }

  ghost function LastWhy(ps: seq<Piece>): Option<Why> {
    if ps == [] then None
    else if ps[|ps| - 1].ReasonPiece? then Some(Meaning(ps[|ps| - 1].reason)) else LastWhy(ps[..|ps| - 1])
  }

  ghost function LastFailure(ps: seq<Piece>): Option<Failure> {
    if ps == [] then None
    else if ps[|ps| - 1].ReasonPiece? && Meaning(ps[|ps| - 1].reason) == Failed then Some(Refused(ps[|ps| - 1].reason))
    else LastFailure(ps[..|ps| - 1])
  }

  // ---------------------------------------------------------------------------------------------
  // Invariants

  /** The chunks emitted so far say of each block exactly what the translator holds. */
  ghost predicate Mirrors(order: seq<OpenBlock>, emitted: seq<Chunk>) {
    && Grammatical(emitted) && Faithful(emitted) && !Finished(emitted)
    && Starts(emitted) == |order| && EndBlocks(emitted) == []
    && (forall i | 0 <= i < |order| :: OpenIn(emitted, i) && Partial(emitted, i) == order[i])
  }

  datatype Places = Places(text: Option<nat>, reasoning: Option<nat>, tools: map<int, nat>)

  /** Each block holds what the pieces of its stream amount to, and every block belongs to a stream. */
  ghost predicate Reflects(order: seq<OpenBlock>, at: Places, fed: seq<Piece>) {
    Texts(order, at, fed) && Tools(order, at, fed) && Laned(|order|, at, fed)
  }

  ghost predicate Texts(order: seq<OpenBlock>, at: Places, fed: seq<Piece>) {
    && (match at.text
        case None => ContentText(fed) == ""
        case Some(p) => p < |order| && order[p] == OpenBlock(TextKind, ContentText(fed), "", ""))
    && (match at.reasoning
        case None => ReasoningText(fed) == ""
        case Some(p) => p < |order| && order[p] == OpenBlock(ReasoningKind, ReasoningText(fed), "", ""))
  }

  ghost predicate Tools(order: seq<OpenBlock>, at: Places, fed: seq<Piece>) {
    && (forall w :: w in at.tools <==> Called(fed, w))
    && (forall w | w in at.tools :: at.tools[w] < |order| && order[at.tools[w]] == ToolOf(fed, w))
    && (forall v, w | v in at.tools && w in at.tools && v != w :: at.tools[v] != at.tools[w])
  }

  /** The streams a message is made of, one block each. */
  datatype Lane = TextLane | ReasoningLane | CallLane(wire: int)

  function LaneOf(p: Piece): Option<Lane> {
    match p
    case ContentPiece(_) => Some(TextLane)
    case ReasoningPiece(_) => Some(ReasoningLane)
    case CallPiece(w, _, _, _) => Some(CallLane(w))
    case ReasonPiece(_) => None
  }

  /** The streams in the order of their first pieces. */
  ghost function Lanes(ps: seq<Piece>): seq<Lane> {
    if ps == [] then []
    else
      var rest, lane := Lanes(ps[..|ps| - 1]), LaneOf(ps[|ps| - 1]);
      if lane.Some? && lane.value !in rest then rest + [lane.value] else rest
  }

  function PlaceOf(at: Places, l: Lane): Option<nat> {
    match l
    case TextLane => at.text
    case ReasoningLane => at.reasoning
    case CallLane(w) => if w in at.tools then Some(at.tools[w]) else None
  }

  function Placed(at: Places, l: Lane, p: nat): Places {
    match l
    case TextLane => at.(text := Some(p))
    case ReasoningLane => at.(reasoning := Some(p))
    case CallLane(w) => at.(tools := at.tools[w := p])
  }

  /** Each stream has its block, in the order of the streams, and there is no other. */
  ghost predicate Laned(n: nat, at: Places, fed: seq<Piece>) {
    && |Lanes(fed)| == n
    && (forall p | 0 <= p < n :: PlaceOf(at, Lanes(fed)[p]) == Some(p))
    && (forall l :: PlaceOf(at, l).Some? <==> l in Lanes(fed))
  }

  lemma LanesSnoc(ps: seq<Piece>, p: Piece)
    ensures Lanes(ps + [p]) == if LaneOf(p).Some? && LaneOf(p).value !in Lanes(ps) then Lanes(ps) + [LaneOf(p).value] else Lanes(ps)
  {
    assert (ps + [p])[..|ps|] == ps;
  }

  lemma LanedOld(n: nat, at: Places, fed: seq<Piece>, p: Piece)
    requires Laned(n, at, fed) && (LaneOf(p).Some? ==> PlaceOf(at, LaneOf(p).value).Some?)
    ensures Laned(n, at, fed + [p])
  {
    LanesSnoc(fed, p);
  }

  lemma LanedNew(n: nat, at: Places, fed: seq<Piece>, p: Piece)
    requires Laned(n, at, fed) && LaneOf(p).Some? && PlaceOf(at, LaneOf(p).value).None?
    ensures Laned(n + 1, Placed(at, LaneOf(p).value, n), fed + [p])
  {
    hide Lanes;
    var l := LaneOf(p).value;
    LanesSnoc(fed, p);
    forall m ensures PlaceOf(Placed(at, l, n), m) == if m == l then Some(n) else PlaceOf(at, m) {}
    forall q | 0 <= q < n ensures Lanes(fed)[q] != l {
      assert Lanes(fed)[q] in Lanes(fed);
    }
  }

  lemma MirrorsStart(order: seq<OpenBlock>, emitted: seq<Chunk>, k: Kind)
    requires Mirrors(order, emitted)
    ensures Mirrors(order + [OpenBlock(k, "", "", "")], emitted + [Start(|order|, k)])
  {
    hide StartedAs, Ended, TextOf, NamesOf, Finished, Starts, EndBlocks, Grammatical, Faithful;
    var c := Start(|order|, k);
    SnocWhole(emitted, c);
    forall i: nat | i <= |order| ensures OpenIn(emitted + [c], i)
      && Partial(emitted + [c], i) == (order + [OpenBlock(k, "", "", "")])[i]
    {
      Snoc(emitted, c, i);
      Dense(emitted, i);
    }
  }

  /** A tool block after a delta: an identity or a name is only ever replaced, never cleared. */
  function Told(b: OpenBlock, id: string, name: string, fragment: string): OpenBlock {
    OpenBlock(b.kind, b.text + fragment, if id != "" then id else b.id, if name != "" then name else b.name)
  }

  /** One delta of a block, and the block with that delta. */
  lemma MirrorsDelta(order: seq<OpenBlock>, emitted: seq<Chunk>, p: nat, c: Chunk, b: OpenBlock)
    requires Mirrors(order, emitted) && p < |order|
    requires match order[p].kind
             case TextKind => c.TextDelta? && c.index == p && b == order[p].(text := order[p].text + c.text)
             case ReasoningKind => c.ReasoningDelta? && c.index == p && b == order[p].(text := order[p].text + c.text)
             case ToolKind => c.ToolDelta? && c.index == p && b == Told(order[p], c.id, c.name, c.fragment)
    ensures Mirrors(order[p := b], emitted + [c])
  {
    hide StartedAs, Ended, TextOf, NamesOf, Finished, Starts, EndBlocks, Grammatical, Faithful;
    SnocWhole(emitted, c);
    assert Partial(emitted, p) == order[p] && OpenIn(emitted, p);
    forall i: nat | i < |order| ensures OpenIn(emitted + [c], i) && Partial(emitted + [c], i) == order[p := b][i] {
      Snoc(emitted, c, i);
      assert OpenIn(emitted, i) && Partial(emitted, i) == order[i];
    }
  }

  lemma PieceSnoc(ps: seq<Piece>, p: Piece)
    ensures ContentText(ps + [p]) == ContentText(ps) + if p.ContentPiece? then p.text else ""
    ensures ReasoningText(ps + [p]) == ReasoningText(ps) + if p.ReasoningPiece? then p.text else ""
    ensures forall w :: Called(ps + [p], w) <==> (p.CallPiece? && p.wire == w) || Called(ps, w)
    ensures forall w | !(p.CallPiece? && p.wire == w) :: ToolOf(ps + [p], w) == ToolOf(ps, w)
    ensures p.CallPiece? ==>
      var rest := ToolOf(ps, p.wire);
      ToolOf(ps + [p], p.wire) ==
        OpenBlock(ToolKind, rest.text + p.arguments, if p.id != "" then p.id else rest.id, if p.name != "" then p.name else rest.name)
    ensures LastWhy(ps + [p]) == if p.ReasonPiece? then Some(Meaning(p.reason)) else LastWhy(ps)
    ensures LastFailure(ps + [p]) == if p.ReasonPiece? && Meaning(p.reason) == Failed then Some(Refused(p.reason)) else LastFailure(ps)
  {
    assert (ps + [p])[..|ps|] == ps;
  }

  lemma {:induction false} Uncalled(ps: seq<Piece>, w: int)
    requires !Called(ps, w)
    ensures ToolOf(ps, w) == OpenBlock(ToolKind, "", "", "")
  {
    if ps != [] {
      Uncalled(ps[..|ps| - 1], w);
    }
  }

  lemma {:induction false} ToolKinds(ps: seq<Piece>, w: int)
    ensures ToolOf(ps, w).kind == ToolKind
  {
    if ps != [] {
      ToolKinds(ps[..|ps| - 1], w);
    }
  }

  lemma ReflectsCall(order: seq<OpenBlock>, at: Places, fed: seq<Piece>, w: int, id: string, name: string, args: string)
    requires Reflects(order, at, fed) && w in at.tools
    ensures
      var p := at.tools[w];
      p < |order| && order[p].kind == ToolKind
      && Reflects(order[p := Told(order[p], id, name, args)], at, fed + [CallPiece(w, id, name, args)])
  {
    hide ContentText, ReasoningText, Called, ToolOf, Laned;
    PieceSnoc(fed, CallPiece(w, id, name, args));
    LanedOld(|order|, at, fed, CallPiece(w, id, name, args));
    ToolKinds(fed, w);
  }

  lemma ReflectsNew(order: seq<OpenBlock>, at: Places, fed: seq<Piece>, w: int, id: string, name: string, args: string)
    requires Reflects(order, at, fed) && w !in at.tools
    ensures Reflects(order + [Told(OpenBlock(ToolKind, "", "", ""), id, name, args)],
                     at.(tools := at.tools[w := |order|]), fed + [CallPiece(w, id, name, args)])
  {
    hide ContentText, ReasoningText, Called, ToolOf, Laned;
    PieceSnoc(fed, CallPiece(w, id, name, args));
    Uncalled(fed, w);
    LanedNew(|order|, at, fed, CallPiece(w, id, name, args));
  }

  class Translator {
    var order: seq<OpenBlock>
    var text: Option<nat>
    var reasoning: Option<nat>
    var toolPosition: map<int, nat>
    var pendingFinish: Option<Why>
    var pendingFailure: Option<Failure>
    var pendingUsage: Option<Usage>
    var done: bool
    /** The chunks delivered and the pieces read so far. */
    ghost var emitted: seq<Chunk>
    ghost var fed: seq<Piece>

    ghost predicate Valid()
      reads this
    {
      && Mirrors(order, emitted)
      && Reflects(order, Places(text, reasoning, toolPosition), fed)
      && pendingFinish == LastWhy(fed) && pendingFailure == LastFailure(fed)
      && !done
    }

    constructor ()
      ensures Valid() && emitted == [] && fed == [] && pendingUsage == None
    {
      order, text, reasoning, toolPosition := [], None, None, map[];
      pendingFinish, pendingFailure, pendingUsage, done := None, None, None, false;
      emitted, fed := [], [];
    }

    /** Opens the text or the reasoning block on first use. */
    method Ensure(slot: Option<nat>, kind: Kind) returns (p: nat, chunks: seq<Chunk>)
      requires Mirrors(order, emitted) && (slot.Some? ==> slot.value < |order|)
      modifies this`order, this`emitted
      ensures Mirrors(order, emitted) && emitted == old(emitted) + chunks
      ensures slot.Some? ==> p == slot.value && order == old(order) && chunks == []
      ensures slot.None? ==> p == |old(order)| && order == old(order) + [OpenBlock(kind, "", "", "")] && chunks == [Start(p, kind)]
    {
      hide Mirrors;
      if slot.Some? {
        return slot.value, [];
      }
      p := |order|;
      MirrorsStart(order, emitted, kind);
      order := order + [OpenBlock(kind, "", "", "")];
      chunks := [Start(p, kind)];
      emitted := emitted + chunks;
    }

    method ApplyReasoning(s: string) returns (chunks: seq<Chunk>)
      requires Valid() && s != ""
      modifies this`order, this`reasoning, this`emitted, this`fed
      ensures Valid() && emitted == old(emitted) + chunks && fed == old(fed) + [ReasoningPiece(s)]
    {
      hide Mirrors, ContentText, ReasoningText, Called, ToolOf, LastWhy, LastFailure, Laned;
      PieceSnoc(fed, ReasoningPiece(s));
      ToolsOf(fed);
      ghost var at := Places(text, reasoning, toolPosition);
      if reasoning.Some? {
        LanedOld(|order|, at, fed, ReasoningPiece(s));
      } else {
        LanedNew(|order|, at, fed, ReasoningPiece(s));
      }
      var p;
      p, chunks := Ensure(reasoning, ReasoningKind);
      reasoning := Some(p);
      MirrorsDelta(order, emitted, p, ReasoningDelta(p, s), order[p].(text := order[p].text + s));
      order := order[p := order[p].(text := order[p].text + s)];
      chunks := chunks + [ReasoningDelta(p, s)];
      emitted := emitted + [ReasoningDelta(p, s)];
      fed := fed + [ReasoningPiece(s)];
    }

    method ApplyContent(s: string) returns (chunks: seq<Chunk>)
      requires Valid() && s != ""
      modifies this`order, this`text, this`emitted, this`fed
      ensures Valid() && emitted == old(emitted) + chunks && fed == old(fed) + [ContentPiece(s)]
    {
      hide Mirrors, ContentText, ReasoningText, Called, ToolOf, LastWhy, LastFailure, Laned;
      PieceSnoc(fed, ContentPiece(s));
      ToolsOf(fed);
      ghost var at := Places(text, reasoning, toolPosition);
      if text.Some? {
        LanedOld(|order|, at, fed, ContentPiece(s));
      } else {
        LanedNew(|order|, at, fed, ContentPiece(s));
      }
      var p;
      p, chunks := Ensure(text, TextKind);
      text := Some(p);
      MirrorsDelta(order, emitted, p, TextDelta(p, s), order[p].(text := order[p].text + s));
      order := order[p := order[p].(text := order[p].text + s)];
      chunks := chunks + [TextDelta(p, s)];
      emitted := emitted + [TextDelta(p, s)];
      fed := fed + [ContentPiece(s)];
    }

    /** The block of a wire index, opened on first use. */
    method Place(wire: int) returns (p: nat, chunks: seq<Chunk>)
      requires Mirrors(order, emitted) && (wire in toolPosition ==> toolPosition[wire] < |order|)
      modifies this`order, this`toolPosition, this`emitted
      ensures Mirrors(order, emitted) && emitted == old(emitted) + chunks
      ensures wire in old(toolPosition) ==> p == old(toolPosition)[wire] && order == old(order) && toolPosition == old(toolPosition)
      ensures wire !in old(toolPosition) ==>
        p == |old(order)| && order == old(order) + [OpenBlock(ToolKind, "", "", "")] && toolPosition == old(toolPosition)[wire := p]
    {
      hide Mirrors;
      if wire in toolPosition {
        return toolPosition[wire], [];
      }
      p := |order|;
      MirrorsStart(order, emitted, ToolKind);
      order := order + [OpenBlock(ToolKind, "", "", "")];
      toolPosition := toolPosition[wire := p];
      chunks := [Start(p, ToolKind)];
      emitted := emitted + chunks;
    }

    /** One tool-call delta: an identity or a name is only ever replaced, never cleared. */
    method ApplyCall(wire: int, id: string, name: string, arguments: string) returns (chunks: seq<Chunk>)
      requires Valid()
      modifies this`order, this`toolPosition, this`emitted, this`fed
      ensures Valid() && emitted == old(emitted) + chunks && fed == old(fed) + [CallPiece(wire, id, name, arguments)]
    {
      hide Mirrors, Reflects, LastWhy, LastFailure;
      ghost var at, order0, piece := Places(text, reasoning, toolPosition), order, CallPiece(wire, id, name, arguments);
      PieceSnoc(fed, piece);
      if wire in toolPosition {
        ReflectsCall(order, at, fed, wire, id, name, arguments);
      } else {
        ReflectsNew(order, at, fed, wire, id, name, arguments);
      }
      var p;
      p, chunks := Place(wire);
      var b := order[p];
      b := b.(id := if id != "" then id else b.id);
      b := b.(name := if name != "" then name else b.name);
      b := b.(text := b.text + arguments);
      var delta := ToolDelta(p, b.id, b.name, arguments);
      MirrorsDelta(order, emitted, p, delta, b);
      order := order[p := b];
      assert wire !in at.tools ==> order == order0 + [b];
      assert b == Told(if wire in at.tools then order0[p] else OpenBlock(ToolKind, "", "", ""), id, name, arguments);
      chunks := chunks + [delta];
      emitted := emitted + [delta];
      fed := fed + [piece];
    }

    /** Finish reasons are deferred; a failure, once noted, is not withdrawn. */
    method ApplyFinishReason(reason: string)
      requires Valid()
      modifies this`pendingFinish, this`pendingFailure, this`fed
      ensures Valid() && fed == old(fed) + [ReasonPiece(reason)]
    {
      hide Mirrors, ContentText, ReasoningText, Called, ToolOf, LastWhy, LastFailure;
      PieceSnoc(fed, ReasonPiece(reason));
      if reason == "stop" {
        pendingFinish := Some(Stopped);
      } else if reason == "tool_calls" {
        pendingFinish := Some(ToolCalls);
      } else if reason == "length" {
        pendingFinish := Some(MaxTokens);
      } else {
        pendingFinish := Some(Failed);
        pendingFailure := Some(Refused(reason));
      }
      fed := fed + [ReasonPiece(reason)];
    }

    method ApplyCalls(calls: seq<Call>) returns (ok: bool, chunks: seq<Chunk>)
      requires Valid()
      modifies this`order, this`toolPosition, this`emitted, this`fed
      ensures ok <==> forall i | 0 <= i < |calls| :: calls[i].Call? ==> calls[i].index != NotANumber
      ensures ok ==> Valid() && emitted == old(emitted) + chunks && fed == old(fed) + CallPieces(calls)
    {
      hide Mirrors, Reflects, LastWhy, LastFailure;
      chunks := [];
      for i := 0 to |calls|
        invariant Valid() && emitted == old(emitted) + chunks && fed == old(fed) + CallPieces(calls[..i])
        invariant forall j | 0 <= j < i :: calls[j].Call? ==> calls[j].index != NotANumber
      {
        assert calls[..i + 1][..i] == calls[..i];
        var call := calls[i];
        if call.Call? {
          if call.index == NotANumber {
            return false, chunks;
          }
          var wire := if call.index.Number? then call.index.n else 0;
          var more := ApplyCall(wire, call.id, call.name, call.arguments);
          chunks := chunks + more;
        }
      }
      assert calls[..|calls|] == calls;
      ok := true;
    }

    /** Reasoning first, then text. */
    method ApplyTexts(choice: Choice) returns (chunks: seq<Chunk>)
      requires Valid() && choice.Choice?
      modifies this`order, this`text, this`reasoning, this`emitted, this`fed
      ensures Valid() && emitted == old(emitted) + chunks && fed == old(fed) + TextPieces(choice)
    {
      hide Mirrors, Reflects, LastWhy, LastFailure;
      chunks := [];
      if choice.reasoning != "" {
        chunks := ApplyReasoning(choice.reasoning);
      }
      if choice.content != "" {
        var more := ApplyContent(choice.content);
        chunks := chunks + more;
      }
    }

    method ApplyDelta(choice: Choice) returns (ok: bool, chunks: seq<Chunk>)
      requires Valid() && choice.Choice?
      modifies this`order, this`text, this`reasoning, this`toolPosition, this`emitted, this`fed
      ensures ok <==> WellTyped(choice)
      ensures ok ==> Valid() && emitted == old(emitted) + chunks && fed == old(fed) + DeltaPieces(choice)
    {
      hide Mirrors, Reflects, LastWhy, LastFailure, TextPieces, CallPieces;
      chunks := ApplyTexts(choice);
      var rest;
      ok, rest := ApplyCalls(choice.calls);
      chunks := chunks + rest;
    }

    method ApplyChoice(choice: Choice) returns (ok: bool, chunks: seq<Chunk>)
      requires Valid()
      modifies this
      ensures ok <==> WellTyped(choice)
      ensures ok ==> Valid() && emitted == old(emitted) + chunks && fed == old(fed) + ChoicePieces(choice)
      ensures pendingUsage == old(pendingUsage)
    {
      hide Mirrors, Reflects, LastWhy, LastFailure, DeltaPieces;
      if choice.NotAChoice? {
        return true, [];
      }
      ok, chunks := ApplyDelta(choice);
      if ok && choice.reason.Some? {
        ApplyFinishReason(choice.reason.value);
      }
    }

    method ApplyChoices(choices: seq<Choice>) returns (ok: bool, chunks: seq<Chunk>)
      requires Valid()
      modifies this
      ensures ok <==> forall i | 0 <= i < |choices| :: WellTyped(choices[i])
      ensures ok ==> Valid() && emitted == old(emitted) + chunks && fed == old(fed) + Pieces(choices)
      ensures pendingUsage == old(pendingUsage)
    {
      hide Mirrors, Reflects, LastWhy, LastFailure, ChoicePieces, WellTyped;
      chunks := [];
      for i := 0 to |choices|
        invariant Valid() && emitted == old(emitted) + chunks && fed == old(fed) + Pieces(choices[..i])
        invariant forall j | 0 <= j < i :: WellTyped(choices[j])
        invariant pendingUsage == old(pendingUsage)
      {
        assert choices[..i + 1][..i] == choices[..i];
        var more;
        ok, more := ApplyChoice(choices[i]);
        if !ok {
          return;
        }
        chunks := chunks + more;
      }
      assert choices[..|choices|] == choices;
      ok := true;
    }

    /** Consumes one payload: its chunks say exactly what its pieces say; none means malformed. */
    method Feed(payload: Payload) returns (chunks: Option<seq<Chunk>>)
      requires done || Valid()
      modifies this
      ensures chunks.Some? <==> !old(done) && Readable(payload)
      ensures chunks.Some? ==> Valid() && emitted == old(emitted) + chunks.value && fed == old(fed) + Pieces(payload.choices)
      ensures chunks.Some? ==>
        pendingUsage == if payload.usage.WireUsage? then Some(MappedUsage(payload.usage)) else old(pendingUsage)
    {
      hide Mirrors, Reflects, LastWhy, LastFailure, Pieces, WellTyped;
      if done || payload.NotAnObject? {
        return None;
      }
      var ok, all := ApplyChoices(payload.choices);
      if !ok || payload.usage.BadUsage? {
        return None;
      }
      if payload.usage.WireUsage? {
        pendingUsage := Some(MappedUsage(payload.usage));
      }
      return Some(all);
    }

    /** The end of the stream: every block ends once with all it streamed, then usage, then one finish. */
    method FinishStream() returns (chunks: seq<Chunk>)
      requires Valid()
      modifies this`done, this`emitted
      ensures done && emitted == old(emitted) + chunks
      ensures Grammatical(emitted) && Faithful(emitted) && Finished(emitted)
      ensures EndBlocks(emitted) == Closed(order)
      ensures forall i :: !OpenIn(emitted, i)
      ensures chunks != [] && chunks[|chunks| - 1] == FinalChunk(order == [], LastWhy(fed), LastFailure(fed))
      ensures pendingUsage.Some? <==> |chunks| > 1 && chunks[|chunks| - 2].Used?
      ensures pendingUsage.Some? ==> chunks[|chunks| - 2] == Used(pendingUsage.value)
    {
      hide StartedAs, Ended, TextOf, NamesOf, Finished, Starts, EndBlocks, Grammatical, Faithful, Reflects, LastWhy, LastFailure, Partial;
      done := true;
      chunks := [];
      for i := 0 to |order|
        invariant done && Closing(order, emitted, i)
        invariant emitted == old(emitted) + chunks && |chunks| == i && (i > 0 ==> chunks[i - 1].End?)
      {
        CloseNext(order, emitted, i);
        chunks := chunks + [End(i, Close(order[i]))];
        emitted := emitted + [End(i, Close(order[i]))];
      }
      assert order[..|order|] == order;
      if pendingUsage.Some? {
        AfterBlocks(order, emitted, Used(pendingUsage.value));
        chunks := chunks + [Used(pendingUsage.value)];
        emitted := emitted + [Used(pendingUsage.value)];
      }
      var reason := if pendingFinish.Some? then pendingFinish.value else Stopped;
      var finish := if reason == Stopped && order == [] then Chunk.Finish(Failed, Some(EmptyResponse), None)
                    else Chunk.Finish(reason, pendingFailure, None);
      AfterBlocks(order, emitted, finish);
      chunks := chunks + [finish];
      emitted := emitted + [finish];
    }
  }

  /** Usage counts: cached input is reported apart and taken off the input count. */
  function MappedUsage(u: WireUsage): (m: Usage)
    requires u.WireUsage?
    ensures u.cached == None ==> m.input == u.prompt
    ensures u.cached.Some? ==> m.input + Min(u.cached.value, u.prompt) == u.prompt
    ensures m.output == u.completion && m.total == u.prompt + u.completion
    ensures m.cacheRead == u.cached && m.cacheWrite == None && m.reasoning == u.reasoning
  {
    Usage(match u.cached case None => u.prompt case Some(c) => if u.prompt > c then u.prompt - c else 0,
          u.completion, u.prompt + u.completion, u.cached, None, u.reasoning)
  }

  function FinalChunk(nothing: bool, why: Option<Why>, failure: Option<Failure>): Chunk {
    if nothing && (why == None || why == Some(Stopped)) then Finish(Failed, Some(EmptyResponse), None)
    else Finish(if why.Some? then why.value else Stopped, failure, None)
  }

  function Closed(order: seq<OpenBlock>): seq<Block> {
    if order == [] then [] else Closed(order[..|order| - 1]) + [Close(order[|order| - 1])]
  }

  lemma ToolsOf(ps: seq<Piece>)
    ensures forall w :: ToolOf(ps, w).kind == ToolKind
  {
    forall w ensures ToolOf(ps, w).kind == ToolKind {
      ToolKinds(ps, w);
    }
  }

  /** The closing loop: blocks below `n` have ended, the others are still open. */
  ghost predicate Closing(order: seq<OpenBlock>, emitted: seq<Chunk>, n: nat) {
    && n <= |order|
    && Grammatical(emitted) && Faithful(emitted) && !Finished(emitted)
    && Starts(emitted) == |order| && EndBlocks(emitted) == Closed(order[..n])
    && (forall i: nat | i < |order| :: OpenIn(emitted, i) <==> i >= n)
    && (forall i: nat | i < |order| :: Partial(emitted, i) == order[i])
  }

  lemma CloseNext(order: seq<OpenBlock>, emitted: seq<Chunk>, n: nat)
    requires Closing(order, emitted, n) && n < |order|
    ensures Closing(order, emitted + [End(n, Close(order[n]))], n + 1)
  {
    hide StartedAs, Ended, TextOf, NamesOf, Finished, Starts, EndBlocks, Grammatical, Faithful;
    var c := End(n, Close(order[n]));
    SnocWhole(emitted, c);
    forall i: nat | i < |order| ensures (OpenIn(emitted + [c], i) <==> i >= n + 1) && Partial(emitted + [c], i) == order[i] {
      Snoc(emitted, c, i);
      assert (OpenIn(emitted, i) <==> i >= n) && Partial(emitted, i) == order[i];
    }
    assert order[..n + 1][..n] == order[..n];
  }

  lemma AfterBlocks(order: seq<OpenBlock>, emitted: seq<Chunk>, c: Chunk)
    requires Closing(order, emitted, |order|) && (c.Used? || c.Finish?)
    ensures c.Used? ==> Closing(order, emitted + [c], |order|)
    ensures Grammatical(emitted + [c]) && Faithful(emitted + [c]) && (c.Finish? ==> Finished(emitted + [c]))
    ensures EndBlocks(emitted + [c]) == Closed(order)
    ensures forall i :: !OpenIn(emitted + [c], i)
  {
    hide StartedAs, Ended, TextOf, NamesOf, Finished, Starts, EndBlocks, Grammatical, Faithful;
    SnocWhole(emitted, c);
    assert order[..|order|] == order;
    forall i: nat ensures OpenIn(emitted + [c], i) <==> OpenIn(emitted, i)
      ensures !OpenIn(emitted, i) && Partial(emitted + [c], i) == Partial(emitted, i)
    {
      Snoc(emitted, c, i);
      Dense(emitted, i);
    }
  }

  // ---------------------------------------------------------------------------------------------
  // What the payloads say

  function Min(a: nat, b: nat): (m: nat)
    ensures m <= a && m <= b && (m == a || m == b)
  {
    if a < b then a else b
  }

  /** The order in which the parts of one choice are read. */
  function Rank(p: Piece): nat {
    match p
    case ReasoningPiece(_) => 0
    case ContentPiece(_) => 1
    case CallPiece(_, _, _, _) => 2
    case ReasonPiece(_) => 3
  }

  ghost function CallsSaid(ps: seq<Piece>): seq<Piece> {
    if ps == [] then [] else (if ps[0].CallPiece? then [ps[0]] else []) + CallsSaid(ps[1..])
  }

  ghost function ReasonsSaid(ps: seq<Piece>): seq<string> {
    if ps == [] then [] else (if ps[0].ReasonPiece? then [ps[0].reason] else []) + ReasonsSaid(ps[1..])
  }

  /** The piece of a call: whatever is no object says nothing, and a missing wire index is zero. */
  ghost predicate Speaks(c: Call, ps: seq<Piece>) {
    match c
    case NotACall => ps == []
    case Call(Missing, id, name, arguments) => ps == [CallPiece(0, id, name, arguments)]
    case Call(Number(n), id, name, arguments) => ps == [CallPiece(n, id, name, arguments)]
    case Call(NotANumber, _, _, _) => true
  }

  /** A choice says its reasoning, its text, its calls and its finish reason, in that order and no more. */
  lemma ChoiceReads(c: Choice)
    requires c.Choice?
    ensures
      var ps := ChoicePieces(c);
      && ReasoningText(ps) == c.reasoning && ContentText(ps) == c.content
      && CallsSaid(ps) == CallPieces(c.calls)
      && ReasonsSaid(ps) == (if c.reason.Some? then [c.reason.value] else [])
      && (forall i, j | 0 <= i < j < |ps| :: Rank(ps[i]) <= Rank(ps[j]))
      && (forall i | 0 <= i < |ps| :: ps[i] != ReasoningPiece("") && ps[i] != ContentPiece(""))
  {
    hide ContentText, ReasoningText, CallsSaid, ReasonsSaid, CallPieces, LastWhy, LastFailure;
    var texts, calls, ends := TextPieces(c), CallPieces(c.calls), if c.reason.Some? then [ReasonPiece(c.reason.value)] else [];
    assert ChoicePieces(c) == texts + calls + ends;
    PiecesAdd(texts, calls);
    PiecesAdd(texts + calls, ends);
    SaidAdd(texts, calls);
    SaidAdd(texts + calls, ends);
    TextsRead(c);
    OnlyCalls(c.calls);
    EndsRead(ends);
  }

  lemma EndsRead(ends: seq<Piece>)
    requires ends == [] || (|ends| == 1 && ends[0].ReasonPiece?)
    ensures ContentText(ends) == ReasoningText(ends) == "" && CallsSaid(ends) == []
    ensures ReasonsSaid(ends) == if ends == [] then [] else [ends[0].reason]
  {}

  lemma TextsRead(c: Choice)
    requires c.Choice?
    ensures
      var ps := TextPieces(c);
      ContentText(ps) == c.content && ReasoningText(ps) == c.reasoning && CallsSaid(ps) == [] && ReasonsSaid(ps) == []
  {
    hide LastWhy, LastFailure;
    var a := if c.reasoning != "" then [ReasoningPiece(c.reasoning)] else [];
    var b := if c.content != "" then [ContentPiece(c.content)] else [];
    assert TextPieces(c) == a + b;
    assert a != [] ==> a[..0] == [];
    assert b != [] ==> b[..0] == [];
    PiecesAdd(a, b);
    SaidAdd(a, b);
  }

  lemma SaidCons(p: Piece, rest: seq<Piece>)
    ensures CallsSaid([p] + rest) == (if p.CallPiece? then [p] else []) + CallsSaid(rest)
    ensures ReasonsSaid([p] + rest) == (if p.ReasonPiece? then [p.reason] else []) + ReasonsSaid(rest)
  {
    assert ([p] + rest)[1..] == rest;
  }

  lemma {:induction false} SaidAdd(a: seq<Piece>, b: seq<Piece>)
    ensures CallsSaid(a + b) == CallsSaid(a) + CallsSaid(b)
    ensures ReasonsSaid(a + b) == ReasonsSaid(a) + ReasonsSaid(b)
  {
    hide CallsSaid, ReasonsSaid;
    NothingSaid();
    if a == [] {
      assert a + b == b;
    } else {
      var rest := a[1..];
      SaidAdd(rest, b);
      SaidCons(a[0], rest);
      SaidCons(a[0], rest + b);
      assert [a[0]] + rest == a && [a[0]] + (rest + b) == a + b;
    }
  }

  lemma {:induction false} OnlyCalls(calls: seq<Call>)
    ensures
      var ps := CallPieces(calls);
      && ContentText(ps) == ReasoningText(ps) == "" && CallsSaid(ps) == ps && ReasonsSaid(ps) == []
      && forall i | 0 <= i < |ps| :: ps[i].CallPiece?
  {
    hide ContentText, ReasoningText, CallsSaid, ReasonsSaid, LastWhy, LastFailure;
    NothingSaid();
    if calls != [] {
      var rest, c := CallPieces(calls[..|calls| - 1]), calls[|calls| - 1];
      OnlyCalls(calls[..|calls| - 1]);
      if c.NotACall? {
        assert CallPieces(calls) == rest;
      } else {
        var p := CallPiece(WireOf(c.index), c.id, c.name, c.arguments);
        assert CallPieces(calls) == rest + [p];
        PieceSnoc(rest, p);
        SaidAdd(rest, [p]);
        SaidCons(p, []);
        assert [p] + [] == [p];
      }
    }
  }

  /** The calls of a choice are read one by one. */
  lemma {:induction false} CallsRead(a: seq<Call>, b: seq<Call>)
    ensures CallPieces(a + b) == CallPieces(a) + CallPieces(b)
    ensures |b| == 1 ==> Speaks(b[0], CallPieces(b))
  {
    if b == [] {
      assert a + b == a;
    } else {
      var n := |b| - 1;
      CallsRead(a, b[..n]);
      assert (a + b)[..|a + b| - 1] == a + b[..n];
    }
  }

  /** Choices are read one by one, and what is no object says nothing. */
  lemma {:induction false} PayloadReads(a: seq<Choice>, b: seq<Choice>)
    ensures Pieces(a + b) == Pieces(a) + Pieces(b)
    ensures |b| == 1 ==> Pieces(b) == ChoicePieces(b[0])
    ensures |b| == 1 && b[0].NotAChoice? ==> Pieces(b) == []
  {
    hide ChoicePieces;
    if b == [] {
      assert a + b == a;
    } else {
      var n := |b| - 1;
      PayloadReads(a, b[..n]);
      assert (a + b)[..|a + b| - 1] == a + b[..n];
    }
    NoChoice();
  }

  lemma NoChoice()
    ensures ChoicePieces(NotAChoice) == []
  {}

  /** What two stretches of pieces amount to together. */
  lemma {:induction false} PiecesAdd(a: seq<Piece>, b: seq<Piece>)
    ensures ContentText(a + b) == ContentText(a) + ContentText(b)
    ensures ReasoningText(a + b) == ReasoningText(a) + ReasoningText(b)
    ensures LastWhy(a + b) == if LastWhy(b).Some? then LastWhy(b) else LastWhy(a)
    ensures LastFailure(a + b) == if LastFailure(b).Some? then LastFailure(b) else LastFailure(a)
  {
    hide ContentText, ReasoningText, LastWhy, LastFailure, Meaning;
    NothingSaid();
    if b == [] {
      assert a + b == a;
    } else {
      var rest, p := b[..|b| - 1], b[|b| - 1];
      PiecesAdd(a, rest);
      PieceSnoc(rest, p);
      PieceSnoc(a + rest, p);
      assert rest + [p] == b && (a + rest) + [p] == a + b;
    }
  }

  /** A tool call over two stretches: fragments run on, a later identity or name replaces an earlier one. */
  lemma {:induction false} CallsAdd(a: seq<Piece>, b: seq<Piece>, w: int)
    ensures ToolOf(a + b, w).text == ToolOf(a, w).text + ToolOf(b, w).text
    ensures ToolOf(a + b, w).id == if ToolOf(b, w).id != "" then ToolOf(b, w).id else ToolOf(a, w).id
    ensures ToolOf(a + b, w).name == if ToolOf(b, w).name != "" then ToolOf(b, w).name else ToolOf(a, w).name
    ensures Called(a + b, w) <==> Called(a, w) || Called(b, w)
  {
    if b == [] {
      assert a + b == a;
    } else {
      var n := |b| - 1;
      CallsAdd(a, b[..n], w);
      assert (a + b)[..|a + b| - 1] == a + b[..n];
    }
  }

  /** What one piece amounts to. */
  lemma OnePiece(p: Piece, w: int)
    ensures ContentText([p]) == if p.ContentPiece? then p.text else ""
    ensures ReasoningText([p]) == if p.ReasoningPiece? then p.text else ""
    ensures Called([p], w) <==> LaneOf(p) == Some(CallLane(w))
    ensures Called([p], w) ==> ToolOf([p], w) == OpenBlock(ToolKind, p.arguments, p.id, p.name)
    ensures !Called([p], w) ==> ToolOf([p], w) == OpenBlock(ToolKind, "", "", "")
    ensures LastWhy([p]) == if p.ReasonPiece? then Some(Meaning(p.reason)) else None
    ensures LastFailure([p]) ==
      if p.ReasonPiece? && p.reason !in {"stop", "tool_calls", "length"} then Some(Refused(p.reason)) else None
  {
    assert [p][..0] == [];
  }

  // ---------------------------------------------------------------------------------------------
  // Interruption

  lemma {:induction false} OrderedAll(open: map<nat, OpenBlock>, order: seq<OpenBlock>, n: nat)
    requires n <= |order| && forall i: nat | i < n :: i in open && open[i] == order[i]
    ensures Ordered(open, n) == Closed(order[..n])
  {
    if n > 0 {
      OrderedAll(open, order, n - 1);
      assert order[..n][..n - 1] == order[..n - 1];
    } else {
      assert order[..0] == [];
    }
  }

  /** Stopping after any payload, the accumulator delivers exactly the translator's open blocks. */
  lemma InterruptedDeliversOpenBlocks(order: seq<OpenBlock>, emitted: seq<Chunk>)
    requires Mirrors(order, emitted)
    ensures
      var a := Accumulated(emitted);
      a.closed == [] && Bound(a.open, |order|) && a.closed + Ordered(a.open, |order|) == Closed(order)
  {
    hide StartedAs, Ended, TextOf, NamesOf, Finished, Starts, EndBlocks, Grammatical, Faithful, Accumulated;
    var a := Accumulated(emitted);
    AccumulatesWhatWasStreamed(emitted);
    forall i | i in a.open ensures i < |order| {
      Dense(emitted, i);
    }
    forall i: nat | i < |order| ensures i in a.open && a.open[i] == order[i] {
      assert OpenIn(emitted, i) && Partial(emitted, i) == order[i];
    }
    OrderedAll(a.open, order, |order|);
    assert order[..|order|] == order;
  }

  // ---------------------------------------------------------------------------------------------
  // The finish contract

  /** A failure was noted exactly when some finish reason was not one of the known ones. */
  lemma {:induction false} FailureNoted(ps: seq<Piece>)
    ensures LastFailure(ps).Some? <==> exists i :: 0 <= i < |ps| && ps[i].ReasonPiece? && Meaning(ps[i].reason) == Failed
  {
    if ps != [] {
      var l := |ps| - 1;
      FailureNoted(ps[..l]);
      if i :| 0 <= i < |ps| && ps[i].ReasonPiece? && Meaning(ps[i].reason) == Failed {
        assert i < l ==> ps[..l][i] == ps[i];
      }
      if i :| 0 <= i < l && ps[..l][i].ReasonPiece? && Meaning(ps[..l][i].reason) == Failed {
        assert ps[i] == ps[..l][i];
      }
    }
  }

  /** The stream contract sets a failure exactly on a failed finish. This translator keeps it exactly
      when the last finish reason is unknown or none is, or when nothing was streamed and there is no
      reason or a plain stop. */
  lemma FinishContract(nothing: bool, ps: seq<Piece>)
    ensures
      var c := FinalChunk(nothing, LastWhy(ps), LastFailure(ps));
      (c.failure.Some? <==> c.why == Failed) <==>
        (nothing && (LastWhy(ps) == None || LastWhy(ps) == Some(Stopped)))
        || (LastWhy(ps) == Some(Failed)
            || forall i | 0 <= i < |ps| :: ps[i].ReasonPiece? ==> Meaning(ps[i].reason) != Failed)
  {
    FailureNoted(ps);
    LastIsNoted(ps);
  }

  lemma {:induction false} LastIsNoted(ps: seq<Piece>)
    ensures LastWhy(ps) == Some(Failed) ==> LastFailure(ps).Some?
  {
    if ps != [] {
      LastIsNoted(ps[..|ps| - 1]);
    }
  }

  /** Some text with an unknown finish reason, and then a payload with nothing but a plain stop. */
  function Stale(reason: string): seq<Payload> {
    [Payload([Choice("", "text", [], Some(reason))], NoUsage), Payload([Choice("", "", [], Some("stop"))], NoUsage)]
  }

  /** A stream fed with that ends as a plain stop that carries a failure. */
  method RefusalOutlivesItsReason(reason: string) returns (t: Translator, chunks: seq<Chunk>)
    requires Meaning(reason) == Failed
    ensures fresh(t) && t.done && t.fed == Pieces(Stale(reason)[0].choices) + Pieces(Stale(reason)[1].choices)
    ensures chunks != [] && chunks[|chunks| - 1] == Finish(Stopped, Some(Refused(reason)), None)
  {
    hide Mirrors, Reflects, ContentText, Pieces, LastWhy, LastFailure, Grammatical, Faithful, Finished, EndBlocks, OpenIn, Closed;
    t := new Translator();
    var first := t.Feed(Stale(reason)[0]);
    var second := t.Feed(Stale(reason)[1]);
    StalePieces(reason);
    TextOpens(t.order, Places(t.text, t.reasoning, t.toolPosition), t.fed);
    chunks := t.FinishStream();
  }

  lemma TextOpens(order: seq<OpenBlock>, at: Places, fed: seq<Piece>)
    requires Reflects(order, at, fed) && ContentText(fed) != ""
    ensures order != []
  {}

  lemma StalePieces(reason: string)
    requires Meaning(reason) == Failed
    ensures
      var fed := [] + Pieces(Stale(reason)[0].choices) + Pieces(Stale(reason)[1].choices);
      && ContentText(fed) != ""
      && LastWhy(fed) == Some(Stopped) && LastFailure(fed) == Some(Refused(reason))
  {
    hide ContentText, LastWhy, LastFailure, Meaning, Pieces, Stale;
    StaleRead(reason);
    NothingSaid();
    var first := [] + [ContentPiece("text")];
    PieceSnoc([], ContentPiece("text"));
    PieceSnoc(first, ReasonPiece(reason));
    PieceSnoc(first + [ReasonPiece(reason)], ReasonPiece("stop"));
  }

  lemma StaleRead(reason: string)
    ensures [] + Pieces(Stale(reason)[0].choices) == [] + [ContentPiece("text")] + [ReasonPiece(reason)]
    ensures Pieces(Stale(reason)[1].choices) == [ReasonPiece("stop")]
  {
    var c, d := Choice("", "text", [], Some(reason)), Choice("", "", [], Some("stop"));
    PayloadReads([], [c]);
    PayloadReads([], [d]);
  }

  lemma NothingSaid()
    ensures ContentText([]) == "" == ReasoningText([]) && CallsSaid([]) == [] && ReasonsSaid([]) == []
    ensures LastWhy([]) == None && LastFailure([]) == None
  {}
}
