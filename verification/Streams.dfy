/**
  The chunk stream between a wire translator and the agent loop: its grammar, and the accumulator
  that folds it into the blocks of a step (plugins/llm/include/araya/llm/llm.hpp:237-300,
  plugins/agent-loop/src/agent.cpp:58-137).
 */
module Streams {
  import opened Basics

  datatype Kind = TextKind | ReasoningKind | ToolKind

  datatype Block = TextBlock(text: string) | ReasoningBlock(text: string) | ToolCall(id: string, name: string, arguments: string)

  datatype Why = Stopped | ToolCalls | MaxTokens | Failed | Aborted

  datatype Failure = EmptyResponse | Refused(providerCode: string) | Cut

  datatype Usage = Usage(input: nat, output: nat, total: nat, cacheRead: Option<nat>, cacheWrite: Option<nat>, reasoning: Option<nat>)

  /** The opaque replay state of a finish: one optional signature per block in start order. */
  type Replay = seq<Option<string>>

  datatype Chunk =
    | Start(index: nat, kind: Kind)
    | TextDelta(index: nat, text: string)
    | ReasoningDelta(index: nat, text: string)
    | ToolDelta(index: nat, id: string, name: string, fragment: string)
    | End(index: nat, block: Block)
    | Used(usage: Usage)
    | Finish(why: Why, failure: Option<Failure>, replay: Option<Replay>)

  datatype OpenBlock = OpenBlock(kind: Kind, text: string, id: string, name: string)

  /** The block an open block becomes when it is closed as it stands. */
  function Close(b: OpenBlock): (c: Block)
    ensures (c.TextBlock? <==> b.kind == TextKind) && (c.ReasoningBlock? <==> b.kind == ReasoningKind)
    ensures if c.ToolCall? then c.id == b.id && c.name == b.name && c.arguments == b.text else c.text == b.text
  {
    match b.kind
    case TextKind => TextBlock(b.text)
    case ReasoningKind => ReasoningBlock(b.text)
    case ToolKind => ToolCall(b.id, b.name, b.text)
  }

  // ---------------------------------------------------------------------------------------------
  // What a stream has said about block `i`

  ghost function StartedAs(cs: seq<Chunk>, i: nat): Option<Kind> {
    if cs == [] then None
    else
      match cs[|cs| - 1]
      case Start(j, k) => if j == i then Some(k) else StartedAs(cs[..|cs| - 1], i)
      case _ => StartedAs(cs[..|cs| - 1], i)
  }

  ghost function Starts(cs: seq<Chunk>): nat {
    if cs == [] then 0 else Starts(cs[..|cs| - 1]) + if cs[|cs| - 1].Start? then 1 else 0
  }

  ghost predicate Ended(cs: seq<Chunk>, i: nat) {
    cs != [] && ((cs[|cs| - 1].End? && cs[|cs| - 1].index == i) || Ended(cs[..|cs| - 1], i))
  }

  ghost predicate Finished(cs: seq<Chunk>) {
    cs != [] && (cs[|cs| - 1].Finish? || Finished(cs[..|cs| - 1]))
  }

  /** The concatenation of the block's deltas. */
  ghost function TextOf(cs: seq<Chunk>, i: nat): string {
    if cs == [] then ""
    else
      var rest := TextOf(cs[..|cs| - 1], i);
      match cs[|cs| - 1]
      case TextDelta(j, t) => if j == i then rest + t else rest
      case ReasoningDelta(j, t) => if j == i then rest + t else rest
      case ToolDelta(j, _, _, t) => if j == i then rest + t else rest
      case _ => rest
  }

  /** The last identity and the last name its deltas carried. */
  ghost function NamesOf(cs: seq<Chunk>, i: nat): (string, string) {
    if cs == [] then ("", "")
    else
      var rest := NamesOf(cs[..|cs| - 1], i);
      match cs[|cs| - 1]
      case ToolDelta(j, id, name, _) =>
        if j == i then (if id != "" then id else rest.0, if name != "" then name else rest.1) else rest
      case _ => rest
  }

  ghost function Partial(cs: seq<Chunk>, i: nat): OpenBlock {
    OpenBlock(match StartedAs(cs, i) case Some(k) => k case None => TextKind, TextOf(cs, i), NamesOf(cs, i).0, NamesOf(cs, i).1)
  }

  ghost function EndBlocks(cs: seq<Chunk>): seq<Block> {
    if cs == [] then [] else EndBlocks(cs[..|cs| - 1]) + if cs[|cs| - 1].End? then [cs[|cs| - 1].block] else []
  }

  /** Started and not yet ended. */
  ghost predicate OpenIn(cs: seq<Chunk>, i: nat) {
    StartedAs(cs, i).Some? && !Ended(cs, i)
  }

  /** Whether a chunk may follow a stream: indices are dense, a block's deltas lie between its one
      start and its one end and have its kind, and nothing follows the finish. */
  ghost predicate Allowed(cs: seq<Chunk>, c: Chunk) {
    && !Finished(cs)
    && match c
       case Start(i, k) => i == Starts(cs)
       case TextDelta(i, _) => OpenIn(cs, i) && StartedAs(cs, i) == Some(TextKind)
       case ReasoningDelta(i, _) => OpenIn(cs, i) && StartedAs(cs, i) == Some(ReasoningKind)
       case ToolDelta(i, _, _, _) => OpenIn(cs, i) && StartedAs(cs, i) == Some(ToolKind)
       case End(i, _) => OpenIn(cs, i)
       case Used(_) => true
       case Finish(_, _, _) => true
  }

  ghost predicate Grammatical(cs: seq<Chunk>) {
    cs == [] || (Grammatical(cs[..|cs| - 1]) && Allowed(cs[..|cs| - 1], cs[|cs| - 1]))
  }

  /** Every end carries exactly what was streamed for its block. */
  ghost predicate Faithful(cs: seq<Chunk>) {
    cs == [] || (Faithful(cs[..|cs| - 1])
                 && (cs[|cs| - 1].End? ==> cs[|cs| - 1].block == Close(Partial(cs[..|cs| - 1], cs[|cs| - 1].index))))
  }

  /** How one more chunk changes what the stream says about block `i`. */
  lemma Snoc(cs: seq<Chunk>, c: Chunk, i: nat)
    ensures StartedAs(cs + [c], i) == if c.Start? && c.index == i then Some(c.kind) else StartedAs(cs, i)
    ensures Ended(cs + [c], i) <==> (c.End? && c.index == i) || Ended(cs, i)
    ensures TextOf(cs + [c], i) == TextOf(cs, i) + Added(c, i)
    ensures NamesOf(cs + [c], i) ==
      if c.ToolDelta? && c.index == i
      then (if c.id != "" then c.id else NamesOf(cs, i).0, if c.name != "" then c.name else NamesOf(cs, i).1)
      else NamesOf(cs, i)
  {
    assert (cs + [c])[..|cs|] == cs;
  }

  function Added(c: Chunk, i: nat): string {
    match c
    case TextDelta(j, t) => if j == i then t else ""
    case ReasoningDelta(j, t) => if j == i then t else ""
    case ToolDelta(j, _, _, t) => if j == i then t else ""
    case _ => ""
  }

  lemma SnocWhole(cs: seq<Chunk>, c: Chunk)
    ensures Starts(cs + [c]) == Starts(cs) + if c.Start? then 1 else 0
    ensures Finished(cs + [c]) <==> c.Finish? || Finished(cs)
    ensures EndBlocks(cs + [c]) == EndBlocks(cs) + if c.End? then [c.block] else []
    ensures Grammatical(cs + [c]) <==> Grammatical(cs) && Allowed(cs, c)
    ensures Faithful(cs + [c]) <==> Faithful(cs) && (c.End? ==> c.block == Close(Partial(cs, c.index)))
  {
    assert (cs + [c])[..|cs|] == cs;
  }

  /** The started blocks are exactly those below the number of starts. */
  lemma {:induction false} Dense(cs: seq<Chunk>, i: nat)
    requires Grammatical(cs)
    ensures StartedAs(cs, i).Some? <==> i < Starts(cs)
    ensures StartedAs(cs, i).None? ==> TextOf(cs, i) == "" && NamesOf(cs, i) == ("", "") && !Ended(cs, i)
  {
    if cs != [] {
      Dense(cs[..|cs| - 1], i);
    }
  }

  // ---------------------------------------------------------------------------------------------
  // The accumulator

  datatype Acc = Acc(
    closed: seq<Block>,
    open: map<nat, OpenBlock>,
    usage: Option<Usage>,
    why: Why,
    failure: Option<Failure>,
    replay: Option<Replay>)

  const EMPTY := Acc([], map[], None, Stopped, None, None)

  /** The open block at an index; indexing creates an empty text block. */
  function At(open: map<nat, OpenBlock>, i: nat): OpenBlock {
    if i in open then open[i] else OpenBlock(TextKind, "", "", "")
  }

  function Pushed(a: Acc, c: Chunk): Acc {
    match c
    case Start(i, k) => if i in a.open then a else a.(open := a.open[i := OpenBlock(k, "", "", "")])
    case TextDelta(i, t) => a.(open := a.open[i := At(a.open, i).(text := At(a.open, i).text + t)])
    case ReasoningDelta(i, t) => a.(open := a.open[i := At(a.open, i).(text := At(a.open, i).text + t)])
    case ToolDelta(i, id, name, t) =>
      var b := At(a.open, i);
      a.(open := a.open[i := OpenBlock(ToolKind, b.text + t, if id != "" then id else b.id, if name != "" then name else b.name)])
    case End(i, b) => a.(open := a.open - {i}, closed := a.closed + [b])
    case Used(u) => a.(usage := Some(u))
    case Finish(why, failure, replay) => a.(why := why, failure := failure, replay := replay)
  }

  ghost function Accumulated(cs: seq<Chunk>): Acc {
    if cs == [] then EMPTY else Pushed(Accumulated(cs[..|cs| - 1]), cs[|cs| - 1])
  }

  /** Accumulating a grammatical stream, or any part of one, reconstructs exactly what was streamed:
      the ended blocks in the order they ended, and every other block as its deltas left it. */
  lemma {:induction false} AccumulatesWhatWasStreamed(cs: seq<Chunk>)
    requires Grammatical(cs)
    ensures Accumulated(cs).closed == EndBlocks(cs)
    ensures forall i :: i in Accumulated(cs).open <==> OpenIn(cs, i)
    ensures forall i | i in Accumulated(cs).open :: Accumulated(cs).open[i] == Partial(cs, i)
  {
    if cs != [] {
      var rest, c := cs[..|cs| - 1], cs[|cs| - 1];
      assert cs == rest + [c];
      AccumulatesWhatWasStreamed(rest);
      forall i: nat ensures i in Accumulated(cs).open <==> OpenIn(cs, i)
        ensures i in Accumulated(cs).open ==> Accumulated(cs).open[i] == Partial(cs, i)
      {
        AccumulateStep(rest, c, i);
      }
    }
  }

  /** The usage is the last one reported, and the outcome is that of the finish, which comes last. */
  lemma {:induction false} AccumulatesTheOutcome(cs: seq<Chunk>)
    requires Grammatical(cs)
    ensures
      var a := Accumulated(cs);
      && (a.usage == None <==> forall i | 0 <= i < |cs| :: !cs[i].Used?)
      && (a.usage.Some? ==> exists i :: 0 <= i < |cs| && cs[i] == Used(a.usage.value) && forall j | i < j < |cs| :: !cs[j].Used?)
      && (!Finished(cs) ==> a.why == Stopped && a.failure == None && a.replay == None)
      && (Finished(cs) ==> cs[|cs| - 1] == Finish(a.why, a.failure, a.replay))
  {
    if cs != [] {
      var rest, c := cs[..|cs| - 1], cs[|cs| - 1];
      AccumulatesTheOutcome(rest);
      assert forall i | 0 <= i < |rest| :: rest[i] == cs[i];
      if c.Used? {
        assert cs[|rest|] == Used(Accumulated(cs).usage.value);
      } else if Accumulated(rest).usage.Some? {
        var i :| 0 <= i < |rest| && rest[i] == Used(Accumulated(rest).usage.value) && forall j | i < j < |rest| :: !rest[j].Used?;
        assert cs[i] == Used(Accumulated(cs).usage.value);
      }
    }
  }

  lemma AccumulateStep(rest: seq<Chunk>, c: Chunk, i: nat)
    requires Grammatical(rest) && Allowed(rest, c)
    requires forall j :: j in Accumulated(rest).open <==> OpenIn(rest, j)
    requires forall j | j in Accumulated(rest).open :: Accumulated(rest).open[j] == Partial(rest, j)
    ensures i in Pushed(Accumulated(rest), c).open <==> OpenIn(rest + [c], i)
    ensures i in Pushed(Accumulated(rest), c).open ==> Pushed(Accumulated(rest), c).open[i] == Partial(rest + [c], i)
  {
    hide StartedAs, Ended, TextOf, NamesOf, Accumulated;
    Snoc(rest, c, i);
    Dense(rest, i);
    assert i in Accumulated(rest).open ==> Accumulated(rest).open[i] == Partial(rest, i);
  }
}
