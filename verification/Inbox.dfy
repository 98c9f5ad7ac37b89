/**
  The durable inbox of a session (plugins/agent-loop/src/inbox.cpp) and the agent operations that
  mutate it (plugins/agent-loop/src/agent.cpp:503-541, 705-731): two queues, changed only by splices.
 */
module Inbox {
  import opened Basics
  import opened JsonValues

  datatype Target = NextTurn | NextStep

  datatype State = State(nextTurn: seq<Json>, nextStep: seq<Json>)

  function Queue(s: State, t: Target): seq<Json> {
    if t == NextTurn then s.nextTurn else s.nextStep
  }

  function Other(t: Target): Target {
    if t == NextTurn then NextStep else NextTurn
  }

  function WithQueue(s: State, t: Target, q: seq<Json>): State {
    if t == NextTurn then s.(nextTurn := q) else s.(nextStep := q)
  }

  function MessageId(m: Json): string {
    if m.Object? then GetString(m.fields, "id") else ""
  }

  function IdsIn(q: seq<Json>): set<string> {
    set i | 0 <= i < |q| :: MessageId(q[i])
  }

  // ---------------------------------------------------------------------------------------------
  // Splice data

  function TargetName(t: Target): string {
    if t == NextTurn then "next-turn" else "next-step"
  }

  function SpliceData(t: Target, start: Int64, removed: Int64, inserted: seq<Json>, outcome: string): Json {
    var base := map["target" := Text(TargetName(t)), "start" := Signed(start), "inserted" := List(inserted)];
    var counted := if removed != 0 then base["removedCount" := Signed(removed)] else base;
    Object(if outcome != "" then counted["outcome" := Text(outcome)] else counted)
  }

  /** toSpliced coordinates: a negative start counts from the end, and both are clamped. */
  function ClampStart(start: int, length: nat): (s: nat)
    ensures s <= length
    ensures 0 <= start <= length ==> s == start
    ensures start < 0 <= start + length ==> s == start + length
    ensures start > length ==> s == length
    ensures start + length < 0 ==> s == 0
  {
    if start < 0 then (if length + start > 0 then length + start else 0)
    else if start < length then start else length
  }

  function ClampCount(count: int, start: nat, length: nat): (n: nat)
    requires start <= length
    ensures start + n <= length
    ensures count <= 0 ==> n == 0
    ensures 0 <= count <= length - start ==> n == count
    ensures count > length - start ==> start + n == length
  {
    if count < 0 then 0 else if count < length - start then count else length - start
  }

  /** The splice a payload asks for; `inserted` is absent when the payload has no such array. */
  datatype Splice = Splice(target: Target, start: int, count: int, inserted: Option<seq<Json>>)

  function Read(data: Json): Option<Splice> {
    if !data.Object? then None
    else
      var m := data.fields;
      match OptString(m, "target")
      case None => None
      case Some(name) =>
        if name != "next-turn" && name != "next-step" then None
        else match OptInt(m, "start")
             case None => None
             case Some(start) =>
               if "removedCount" in m && IntOf(m["removedCount"]) == None then None
               else Some(Splice(if name == "next-turn" then NextTurn else NextStep, start,
                                if "removedCount" in m then IntOf(m["removedCount"]).value else 0,
                                if "inserted" in m && m["inserted"].List? then Some(m["inserted"].items) else None))
  }

  /** The insertions that are let in: with an identity nobody has. */
  function Admitted(taken: set<string>, inserted: seq<Json>): seq<Json> {
    if inserted == [] then []
    else
      var rest := Admitted(taken, inserted[..|inserted| - 1]);
      var m := inserted[|inserted| - 1];
      if MessageId(m) == "" || MessageId(m) in taken + IdsIn(rest) then rest else rest + [m]
  }

  function Kept(q: seq<Json>, at: nat, n: nat): seq<Json>
    requires at + n <= |q|
  {
    q[..at] + q[at + n..]
  }

  function Apply(s: State, p: Splice): State {
    var q := Queue(s, p.target);
    var at := ClampStart(p.start, |q|);
    var kept := Kept(q, at, ClampCount(p.count, at, |q|));
    var taken := IdsIn(kept) + IdsIn(Queue(s, Other(p.target)));
    WithQueue(s, p.target, kept[..at] + (if p.inserted.None? then [] else Admitted(taken, p.inserted.value)) + kept[at..])
  }

  /** One splice event folded into the state; a malformed one changes nothing. */
  function Spliced(s: State, data: Json): State {
    match Read(data) case None => s case Some(p) => Apply(s, p)
  }

  datatype Mutation = Noop | Mutation(data: Json, removed: seq<Json>)

  /** A splice normalised against the current queue. */
  function MakeSplice(s: State, t: Target, start: Int64, count: Int64, inserted: seq<Json>, discard: bool): Mutation
    requires |Queue(s, t)| < TWO_63
  {
    var q := Queue(s, t);
    var at := ClampStart(start, |q|);
    var n := ClampCount(count, at, |q|);
    if n == 0 && inserted == [] then Noop
    else Mutation(SpliceData(t, at, n, inserted, if discard && n > 0 then "canceled" else ""), q[at..at + n])
  }

  // ---------------------------------------------------------------------------------------------
  // A splice does what it reported

  /** What the fields of a payload ask for: a missing count is none, a missing list no list. */
  ghost predicate Asks(data: Json, p: Splice) {
    && data.Object?
    && OptString(data.fields, "target") == Some(match p.target case NextTurn => "next-turn" case NextStep => "next-step")
    && OptInt(data.fields, "start") == Some(p.start)
    && ("removedCount" !in data.fields ==> p.count == 0)
    && ("removedCount" in data.fields ==> OptInt(data.fields, "removedCount") == Some(p.count))
    && (p.inserted.Some? <==> "inserted" in data.fields && data.fields["inserted"].List?)
    && (p.inserted.Some? ==> data.fields["inserted"] == List(p.inserted.value))
  }

  lemma ReadsWhatIsAsked(data: Json, p: Splice)
    ensures Read(data) == Some(p) <==> Asks(data, p)
  {}

  lemma ReadBack(t: Target, start: Int64, removed: Int64, inserted: seq<Json>, outcome: string)
    ensures Read(SpliceData(t, start, removed, inserted, outcome)) == Some(Splice(t, start, removed, Some(inserted)))
  {
    var m := SpliceData(t, start, removed, inserted, outcome).fields;
    assert m["target"] == Text(TargetName(t)) && m["start"] == Signed(start) && m["inserted"] == List(inserted);
    assert "removedCount" in m <==> removed != 0;
  }

  /** Whether `after` is the queue with exactly the messages `removed` at `at` taken out and
      `inserted` put in their place. */
  ghost predicate Replaced(q: seq<Json>, at: nat, removed: seq<Json>, inserted: seq<Json>, after: seq<Json>) {
    at + |removed| <= |q| && removed == q[at..at + |removed|] && after == q[..at] + inserted + q[at + |removed|..]
  }

  lemma ApplyReplaces(s: State, p: Splice)
    requires p.inserted.Some?
    ensures var q := Queue(s, p.target);
      var at := ClampStart(p.start, |q|);
      var n := ClampCount(p.count, at, |q|);
      && Replaced(q, at, q[at..at + n], Admitted(IdsIn(Kept(q, at, n)) + IdsIn(Queue(s, Other(p.target))), p.inserted.value),
                  Queue(Apply(s, p), p.target))
      && Queue(Apply(s, p), Other(p.target)) == Queue(s, Other(p.target))
  {
    hide Admitted, IdsIn;
    var q := Queue(s, p.target);
    var at := ClampStart(p.start, |q|);
    var n := ClampCount(p.count, at, |q|);
    assert Kept(q, at, n)[..at] == q[..at] && Kept(q, at, n)[at..] == q[at + n..];
  }

  /** Applying the data a splice was made into removes exactly the messages it reported and puts the
      admitted insertions, in order, in their place; the other queue is untouched. */
  lemma SpliceDoesWhatItReports(s: State, t: Target, start: Int64, count: Int64, inserted: seq<Json>, discard: bool)
    requires |Queue(s, t)| < TWO_63
    ensures var m := MakeSplice(s, t, start, count, inserted, discard);
      var n := ClampCount(count, ClampStart(start, |Queue(s, t)|), |Queue(s, t)|);
      (m.Noop? <==> n == 0 && inserted == []) && (m.Mutation? ==> |m.removed| == n)
    ensures var m := MakeSplice(s, t, start, count, inserted, discard);
      m.Mutation? ==>
        var q, at := Queue(s, t), ClampStart(start, |Queue(s, t)|);
        && at + |m.removed| <= |q|
        && Replaced(q, at, m.removed, Admitted(IdsIn(Kept(q, at, |m.removed|)) + IdsIn(Queue(s, Other(t))), inserted),
                    Queue(Spliced(s, m.data), t))
        && Queue(Spliced(s, m.data), Other(t)) == Queue(s, Other(t))
  {
    hide Admitted, IdsIn, Apply, Read, SpliceData, Kept, Replaced;
    var q := Queue(s, t);
    var at := ClampStart(start, |q|);
    var n := ClampCount(count, at, |q|);
    ReadBack(t, at, n, inserted, if discard && n > 0 then "canceled" else "");
    ApplyReplaces(s, Splice(t, at, n, Some(inserted)));
  }

  // ---------------------------------------------------------------------------------------------
  // Identities stay unique

  ghost predicate Own(q: seq<Json>) {
    && (forall i | 0 <= i < |q| :: MessageId(q[i]) != "")
    && (forall i, j | 0 <= i < j < |q| :: MessageId(q[i]) != MessageId(q[j]))
  }

  /** No message is without an identity, and no two share one, across both queues. */
  ghost predicate Unique(s: State) {
    Own(s.nextTurn) && Own(s.nextStep) && IdsIn(s.nextTurn) !! IdsIn(s.nextStep)
  }

  lemma {:induction false} AdmittedOwn(taken: set<string>, inserted: seq<Json>)
    ensures Own(Admitted(taken, inserted)) && IdsIn(Admitted(taken, inserted)) !! taken
  {
    if inserted != [] {
      var rest, m := Admitted(taken, inserted[..|inserted| - 1]), inserted[|inserted| - 1];
      AdmittedOwn(taken, inserted[..|inserted| - 1]);
      forall i | 0 <= i < |rest| ensures MessageId(rest[i]) in IdsIn(rest) {}
    }
  }

  lemma OwnParts(q: seq<Json>, r: seq<Json>)
    ensures Own(q + r) <==> Own(q) && Own(r) && IdsIn(q) !! IdsIn(r)
    ensures IdsIn(q + r) == IdsIn(q) + IdsIn(r)
  {
    hide MessageId;
    var all := q + r;
    assert forall i | 0 <= i < |q| :: all[i] == q[i];
    assert forall i | 0 <= i < |r| :: all[|q| + i] == r[i];
    if Own(q) && Own(r) && IdsIn(q) !! IdsIn(r) {
      forall i, j | 0 <= i < j < |all| ensures MessageId(all[i]) != MessageId(all[j]) {
        if i < |q| <= j {
          assert MessageId(q[i]) in IdsIn(q) && MessageId(r[j - |q|]) in IdsIn(r);
        }
      }
    }
    if Own(all) {
      forall i, j | 0 <= i < |q| && 0 <= j < |r| ensures MessageId(q[i]) != MessageId(r[j]) {
        assert all[i] == q[i] && all[|q| + j] == r[j];
      }
    }
  }

  /** Any splice at all, whatever produced it, keeps identities present and unique. */
  lemma SplicedUnique(s: State, data: Json)
    requires Unique(s)
    ensures Unique(Spliced(s, data))
  {
    hide Own, IdsIn, Admitted, Read;
    if Read(data).Some? {
      var p := Read(data).value;
      var q := Queue(s, p.target);
      var at := ClampStart(p.start, |q|);
      var n := ClampCount(p.count, at, |q|);
      var taken := IdsIn(Kept(q, at, n)) + IdsIn(Queue(s, Other(p.target)));
      var entering := if p.inserted.None? then [] else Admitted(taken, p.inserted.value);
      OwnNothing();
      if p.inserted.Some? {
        AdmittedOwn(taken, p.inserted.value);
      }
      var a, b, c := q[..at], q[at..at + n], q[at + n..];
      assert q == a + (b + c);
      OwnParts(a, b + c);
      OwnParts(b, c);
      OwnParts(a, c);
      OwnParts(a, entering);
      OwnParts(a + entering, c);
      assert Kept(q, at, n)[..at] == a && Kept(q, at, n)[at..] == c;
    }
  }

  /** An insertion with an identity, which is not taken and which no insertion before it has. */
  ghost predicate New(taken: set<string>, inserted: seq<Json>, i: nat)
    requires i < |inserted|
  {
    && MessageId(inserted[i]) != "" && MessageId(inserted[i]) !in taken
    && forall j | 0 <= j < i :: MessageId(inserted[j]) != MessageId(inserted[i])
  }

  /** The new ones among the insertions, in order. */
  ghost function Newcomers(taken: set<string>, inserted: seq<Json>): seq<Json> {
    if inserted == [] then []
    else
      var n := |inserted| - 1;
      Newcomers(taken, inserted[..n]) + if New(taken, inserted, n) then [inserted[n]] else []
  }

  lemma {:induction false} IdsAdmitted(taken: set<string>, inserted: seq<Json>)
    ensures taken + IdsIn(Admitted(taken, inserted)) == taken + (IdsIn(inserted) - {""})
  {
    hide MessageId, IdsIn, Own;
    if inserted == [] {
      OwnNothing();
    } else {
      var n := |inserted| - 1;
      var m := inserted[n];
      IdsAdmitted(taken, inserted[..n]);
      assert inserted == inserted[..n] + [m];
      OwnParts(inserted[..n], [m]);
      IdsOne(m);
      var rest := Admitted(taken, inserted[..n]);
      OwnParts(rest, [m]);
      if MessageId(m) == "" || MessageId(m) in taken + IdsIn(rest) {
        assert Admitted(taken, inserted) == rest;
      } else {
        assert Admitted(taken, inserted) == rest + [m];
      }
      forall id ensures id in taken + IdsIn(Admitted(taken, inserted)) <==> id in taken + (IdsIn(inserted) - {""}) {
        assert id in taken + IdsIn(rest) <==> id in taken + (IdsIn(inserted[..n]) - {""});
      }
    }
  }

  /** Exactly the new ones are let in. */
  lemma {:induction false} AdmittedExactly(taken: set<string>, inserted: seq<Json>)
    ensures Admitted(taken, inserted) == Newcomers(taken, inserted)
  {
    hide MessageId;
    if inserted != [] {
      var n := |inserted| - 1;
      AdmittedExactly(taken, inserted[..n]);
      IdsAdmitted(taken, inserted[..n]);
      assert MessageId(inserted[n]) in IdsIn(inserted[..n]) <==>
        exists j :: 0 <= j < n && MessageId(inserted[..n][j]) == MessageId(inserted[n]);
      assert forall j | 0 <= j < n :: inserted[..n][j] == inserted[j];
    }
  }

  lemma OwnNothing()
    ensures Own([]) && IdsIn([]) == {}
  {}

  /** Messages that are new and distinct are all admitted. */
  lemma {:induction false} FreshAdmitted(taken: set<string>, inserted: seq<Json>)
    requires Own(inserted) && IdsIn(inserted) !! taken
    ensures Admitted(taken, inserted) == inserted
  {
    if inserted != [] {
      var l := |inserted| - 1;
      assert inserted == inserted[..l] + [inserted[l]];
      OwnParts(inserted[..l], [inserted[l]]);
      FreshAdmitted(taken, inserted[..l]);
      assert MessageId(inserted[l]) in IdsIn(inserted);
      assert MessageId([inserted[l]][0]) in IdsIn([inserted[l]]);
    }
  }

  // ---------------------------------------------------------------------------------------------
  // The agent's inbox

  datatype Fate = Claimed | Discarded

  datatype Departure = Departure(message: Json, fate: Fate)

  ghost function Messages(ds: seq<Departure>): (ms: seq<Json>)
    ensures |ms| == |ds|
  {
    seq(|ds|, i requires 0 <= i < |ds| => ds[i].message)
  }

  ghost function Depart(ms: seq<Json>, fate: Fate): (ds: seq<Departure>)
    ensures |ds| == |ms| && Messages(ds) == ms
  {
    seq(|ms|, i requires 0 <= i < |ms| => Departure(ms[i], fate))
  }

  /** What went through a queue: every message that entered it and every departure, each in order. */
  datatype Ledger = Ledger(entered: seq<Json>, departed: seq<Departure>)

  /** First in, first out, and conserved: what entered is what departed, once each and in that order,
      followed by what is still queued. */
  ghost predicate Balanced(l: Ledger, q: seq<Json>) {
    l.entered == Messages(l.departed) + q
  }

  // What the durable log says

  /** How a payload says its messages departed. */
  function FateIn(data: Json): Fate {
    if data.Object? && OptString(data.fields, "outcome") == Some("canceled") then Discarded else Claimed
  }

  /** The messages of one queue that a payload takes out, and how. */
  ghost function TakenBy(s: State, data: Json, t: Target): seq<Departure> {
    match Read(data)
    case None => []
    case Some(p) =>
      if p.target != t then []
      else
        var q := Queue(s, t);
        var at := ClampStart(p.start, |q|);
        Depart(q[at..at + ClampCount(p.count, at, |q|)], FateIn(data))
  }

  /** The queues after a log of payloads. */
  ghost function Restored(log: seq<Json>): State {
    if log == [] then State([], []) else Spliced(Restored(log[..|log| - 1]), log[|log| - 1])
  }

  /** The departures from one queue that a log of payloads tells. */
  ghost function Told(log: seq<Json>, t: Target): seq<Departure> {
    if log == [] then []
    else Told(log[..|log| - 1], t) + TakenBy(Restored(log[..|log| - 1]), log[|log| - 1], t)
  }

  lemma ToldMore(log: seq<Json>, data: Json, t: Target)
    ensures Restored(log + [data]) == Spliced(Restored(log), data)
    ensures Told(log + [data], t) == Told(log, t) + TakenBy(Restored(log), data, t)
  {
    assert (log + [data])[..|log|] == log;
  }

  /** A splice is told as what it reported: discarded when it was meant so and took anything. */
  lemma SpliceTells(s: State, t: Target, start: Int64, count: Int64, inserted: seq<Json>, discard: bool)
    requires |Queue(s, t)| < TWO_63
    ensures var m := MakeSplice(s, t, start, count, inserted, discard);
      m.Mutation? ==>
        && TakenBy(s, m.data, t) == Depart(m.removed, if discard && m.removed != [] then Discarded else Claimed)
        && TakenBy(s, m.data, Other(t)) == []
        && m.data.Object?
        && OptString(m.data.fields, "outcome") == if discard && m.removed != [] then Some("canceled") else None
  {
    hide Read, Kept, SpliceData, FateIn, OptString;
    var q := Queue(s, t);
    var at := ClampStart(start, |q|);
    var n := ClampCount(count, at, |q|);
    var outcome := if discard && n > 0 then "canceled" else "";
    ReadBack(t, at, n, inserted, outcome);
    OutcomeRead(t, at, n, inserted, outcome);
  }

  lemma OutcomeRead(t: Target, start: Int64, removed: Int64, inserted: seq<Json>, outcome: string)
    requires outcome == "canceled" || outcome == ""
    ensures SpliceData(t, start, removed, inserted, outcome).Object?
    ensures FateIn(SpliceData(t, start, removed, inserted, outcome)) == if outcome == "canceled" then Discarded else Claimed
    ensures OptString(SpliceData(t, start, removed, inserted, outcome).fields, "outcome") == if outcome == "" then None else Some(outcome)
  {
    var m := SpliceData(t, start, removed, inserted, outcome).fields;
    assert "outcome" in m <==> outcome != "";
  }

  class AgentInbox {
    var nextTurn: seq<Json>
    var nextStep: seq<Json>
    /** The payloads committed so far. */
    ghost var log: seq<Json>
    ghost var turns: Ledger
    ghost var steps: Ledger

    ghost function Now(): State
      reads this
    {
      State(nextTurn, nextStep)
    }

    ghost function LedgerOf(t: Target): Ledger
      reads this
    {
      if t == NextTurn then turns else steps
    }

    ghost predicate Valid()
      reads this
    {
      && Unique(Now()) && Balanced(turns, nextTurn) && Balanced(steps, nextStep)
      && Now() == Restored(log) && turns.departed == Told(log, NextTurn) && steps.departed == Told(log, NextStep)
    }

    constructor ()
      ensures Valid() && Now() == State([], []) && log == [] && turns == steps == Ledger([], [])
    {
      nextTurn, nextStep := [], [];
      turns, steps, log := Ledger([], []), Ledger([], []), [];
      new;
      OwnNothing();
    }

    /** Folds one splice payload into the queues, in place. */
    method Fold(data: Json)
      modifies this`nextTurn, this`nextStep
      ensures Now() == Spliced(old(Now()), data)
    {
      hide Read, Apply;
      var read := Read(data);
      if read.None? {
        return;
      }
      var p := read.value;
      if p.target == NextTurn {
        nextTurn := Edited(nextTurn, nextStep, p);
      } else {
        nextStep := Edited(nextStep, nextTurn, p);
      }
    }

    /** One queue with the splice made in it, given the other queue. */
    static method Edited(queue: seq<Json>, other: seq<Json>, p: Splice) returns (edited: seq<Json>)
      ensures forall s: State | Queue(s, p.target) == queue && Queue(s, Other(p.target)) == other ::
        Apply(s, p) == WithQueue(s, p.target, edited)
    {
      hide Admitted, IdsIn, MessageId;
      var start := ClampStart(p.start, |queue|);
      var removed := ClampCount(p.count, start, |queue|);
      edited := queue[..start] + queue[start + removed..];
      ghost var kept := edited;
      assert kept == kept[..start] + [] + kept[start..];
      if p.inserted.Some? {
        edited := Insert(edited, start, p.inserted.value, IdsIn(edited) + IdsIn(other));
      }
    }

    /** Inserts messages one behind the other, skipping those without a new identity. */
    static method Insert(queue: seq<Json>, start: nat, inserted: seq<Json>, taken: set<string>) returns (merged: seq<Json>)
      requires start <= |queue|
      ensures merged == queue[..start] + Admitted(taken, inserted) + queue[start..]
    {
      hide MessageId;
      var at, ids := start, taken;
      merged := queue;
      for i := 0 to |inserted|
        invariant merged == queue[..start] + Admitted(taken, inserted[..i]) + queue[start..]
        invariant at == start + |Admitted(taken, inserted[..i])|
        invariant ids == taken + IdsIn(Admitted(taken, inserted[..i]))
      {
        ghost var rest := Admitted(taken, inserted[..i]);
        assert inserted[..i + 1][..i] == inserted[..i];
        var id := MessageId(inserted[i]);
        if id != "" && id !in ids {
          OwnParts(rest, [inserted[i]]);
          IdsOne(inserted[i]);
          merged := merged[..at] + [inserted[i]] + merged[at..];
          at := at + 1;
          ids := ids + {id};
        }
      }
      assert inserted[..|inserted|] == inserted;
    }

    /** Appends a message; one that is not new is dropped by the fold. */
    method Enqueue(t: Target, message: Json)
      requires Valid() && |Queue(Now(), t)| < TWO_63
      modifies this
      ensures Valid() && LedgerOf(Other(t)) == old(LedgerOf(Other(t)))
      ensures
        var isNew := MessageId(message) != "" && MessageId(message) !in IdsIn(old(nextTurn)) + IdsIn(old(nextStep));
        var q, l := Queue(old(Now()), t), old(LedgerOf(t));
        && Now() == WithQueue(old(Now()), t, q + if isNew then [message] else [])
        && LedgerOf(t) == if isNew then Ledger(l.entered + [message], l.departed) else l
    {
      hide Unique, Spliced, Admitted, MessageId, IdsIn, TakenBy, Told, Restored;
      ghost var s := Now();
      var mutation := MakeSplice(State(nextTurn, nextStep), t, TWO_63 - 1, 0, [message], false);
      SplicedUnique(s, mutation.data);
      EnqueueEffect(s, t, message);
      SpliceTells(s, t, TWO_63 - 1, 0, [message], false);
      ToldMore(log, mutation.data, t);
      ToldMore(log, mutation.data, Other(t));
      assert Depart([], Claimed) == [];
      Fold(mutation.data);
      log := log + [mutation.data];
      if MessageId(message) != "" && MessageId(message) !in IdsIn(s.nextTurn) + IdsIn(s.nextStep) {
        if t == NextTurn {
          turns := turns.(entered := turns.entered + [message]);
        } else {
          steps := steps.(entered := steps.entered + [message]);
        }
      }
    }

    /** Takes the first messages of a queue, by a pure-delete splice. */
    method Take(t: Target, count: nat, fate: Fate) returns (removed: seq<Json>)
      requires Valid() && |Queue(Now(), t)| < TWO_63 && count < TWO_63
      modifies this
      ensures Valid() && LedgerOf(Other(t)) == old(LedgerOf(Other(t)))
      ensures var q := Queue(old(Now()), t);
        && removed == q[..Least(count, |q|)]
        && Now() == WithQueue(old(Now()), t, q[Least(count, |q|)..])
      ensures LedgerOf(t) == Paid(old(LedgerOf(t)), removed, fate)
    {
      hide Unique, Spliced, Admitted, MessageId, IdsIn, Balanced, TakenBy, Told, Restored;
      ghost var s := Now();
      var mutation := MakeSplice(State(nextTurn, nextStep), t, 0, count, [], fate == Discarded);
      PaidNothing(LedgerOf(t), fate);
      if mutation.Noop? {
        return [];
      }
      SplicedUnique(s, mutation.data);
      TakeEffect(s, t, count, fate == Discarded);
      SpliceTells(s, t, 0, count, [], fate == Discarded);
      ToldMore(log, mutation.data, t);
      ToldMore(log, mutation.data, Other(t));
      Fold(mutation.data);
      log := log + [mutation.data];
      removed := mutation.removed;
      PaidBalances(LedgerOf(t), Queue(s, t), Least(count, |Queue(s, t)|), fate);
      if t == NextTurn {
        turns := Paid(turns, removed, fate);
      } else {
        steps := Paid(steps, removed, fate);
      }
    }

    /** The claim of a step: every next-step message, and on a turn's first step one next-turn message. */
    method ClaimForStep(first: bool) returns (claimed: seq<Json>)
      requires Valid() && |nextTurn| < TWO_63 && |nextStep| < TWO_63
      modifies this
      ensures Valid() && nextStep == [] && steps == Paid(old(steps), old(nextStep), Claimed)
      ensures var n := if first then Least(1, |old(nextTurn)|) else 0;
        && claimed == old(nextStep) + old(nextTurn)[..n]
        && nextTurn == old(nextTurn)[n..]
        && turns == Paid(old(turns), old(nextTurn)[..n], Claimed)
    {
      hide Unique, Balanced, Paid, Told, Restored;
      assert nextStep[..|nextStep|] == nextStep;
      claimed := Take(NextStep, |nextStep|, Claimed);
      PaidNothing(turns, Claimed);
      if first {
        var turn := Take(NextTurn, 1, Claimed);
        claimed := claimed + turn;
      }
    }

    /** Discards everything pending. */
    method Clear() returns (discarded: seq<Json>)
      requires Valid() && |nextTurn| < TWO_63 && |nextStep| < TWO_63
      modifies this
      ensures Valid() && Now() == State([], [])
      ensures discarded == old(nextStep) + old(nextTurn)
      ensures steps == Paid(old(steps), old(nextStep), Discarded) && turns == Paid(old(turns), old(nextTurn), Discarded)
    {
      hide Unique, Balanced, Paid, Told, Restored;
      discarded := [];
      assert nextStep[..|nextStep|] == nextStep && nextTurn[..|nextTurn|] == nextTurn;
      PaidNothing(steps, Discarded);
      PaidNothing(turns, Discarded);
      if |nextStep| != 0 {
        var step := Take(NextStep, |nextStep|, Discarded);
        discarded := discarded + step;
      }
      if |nextTurn| != 0 {
        var turn := Take(NextTurn, |nextTurn|, Discarded);
        discarded := discarded + turn;
      }
    }
  }

  function Least(a: nat, b: nat): nat {
    if a < b then a else b
  }

  /** The ledger after some messages departed. */
  ghost function Paid(l: Ledger, ms: seq<Json>, fate: Fate): Ledger {
    l.(departed := l.departed + Depart(ms, fate))
  }

  lemma PaidNothing(l: Ledger, fate: Fate)
    ensures Paid(l, [], fate) == l
  {
    assert Depart([], fate) == [];
  }

  lemma PaidBalances(l: Ledger, q: seq<Json>, n: nat, fate: Fate)
    requires Balanced(l, q) && n <= |q|
    ensures Balanced(Paid(l, q[..n], fate), q[n..])
  {
    DepartAppend(l.departed, q[..n], fate);
    assert q == q[..n] + q[n..];
  }

  lemma IdsOne(m: Json)
    ensures IdsIn([m]) == {MessageId(m)}
  {
    assert [m][0] == m;
  }

  lemma DepartAppend(ds: seq<Departure>, ms: seq<Json>, fate: Fate)
    ensures Messages(ds + Depart(ms, fate)) == Messages(ds) + ms
  {
    var all := ds + Depart(ms, fate);
    forall i | 0 <= i < |all| ensures Messages(all)[i] == (Messages(ds) + ms)[i] {
      if i >= |ds| {
        assert all[i] == Depart(ms, fate)[i - |ds|];
        assert Messages(Depart(ms, fate))[i - |ds|] == ms[i - |ds|];
      }
    }
  }

  lemma EnqueueEffect(s: State, t: Target, message: Json)
    requires |Queue(s, t)| < TWO_63
    ensures
      var m := MakeSplice(s, t, TWO_63 - 1, 0, [message], false);
      var isNew := MessageId(message) != "" && MessageId(message) !in IdsIn(s.nextTurn) + IdsIn(s.nextStep);
      m.Mutation? && Spliced(s, m.data) == WithQueue(s, t, Queue(s, t) + if isNew then [message] else [])
  {
    hide Spliced, Admitted, IdsIn, MessageId, SpliceData;
    SpliceDoesWhatItReports(s, t, TWO_63 - 1, 0, [message], false);
    var q := Queue(s, t);
    assert Kept(q, |q|, 0) == q && q[..|q|] == q && q[|q|..] == [];
    AdmitOne(IdsIn(q) + IdsIn(Queue(s, Other(t))), message);
  }

  lemma AdmitOne(taken: set<string>, m: Json)
    ensures Admitted(taken, [m]) == if MessageId(m) != "" && MessageId(m) !in taken then [m] else []
  {
    hide MessageId;
    assert [m][..0] == [];
    assert IdsIn([]) == {};
  }

  lemma TakeEffect(s: State, t: Target, count: nat, discard: bool)
    requires |Queue(s, t)| < TWO_63 && count < TWO_63
    ensures
      var m := MakeSplice(s, t, 0, count, [], discard);
      var n := if count < |Queue(s, t)| then count else |Queue(s, t)|;
      m.Mutation? ==> m.removed == Queue(s, t)[..n] && Spliced(s, m.data) == WithQueue(s, t, Queue(s, t)[n..])
  {
    hide Spliced, IdsIn, MessageId, SpliceData;
    SpliceDoesWhatItReports(s, t, 0, count, [], discard);
  }
}
