/**
  What each single update of the engine's state does to the invariants, and the relation between the
  state before and after a withdrawal cascade.
 */
module FiberSteps {
  import opened Basics
  import opened Fibers

  // ---------------------------------------------------------------------------------------------
  // What a cascade may do

  /** One fiber, before (`a`) and after (`b`) part of a cascade. */
  predicate Moves(id: FiberId, a: Fiber, b: Fiber, bs: Slots, bs2: Slots) {
    && b.spec == a.spec
    && (a.reactivate == -1 <==> b.reactivate == -1)
    && b.applyFailed == a.applyFailed
    && (b.state == Loading && a.state != Loading ==> a.reactivate != -1)
    && (Published(b) ==> Published(a) && b.committed == a.committed && (b.activation == Active ==> a.activation == Active))
    && (!Published(a) && a.state != Inactive ==>
          b.state == a.state && b.activation == a.activation && b.committed == a.committed
          && b.stopRequested == a.stopRequested)
    && (!Published(a) && a.state == Inactive ==>
          b.state == Inactive
          || (b.state == Loading && Satisfiable(bs, id, a.spec) && ViewLive(bs, b) && a.reactivate >= 0 && !a.applyFailed))
    && (Published(a) && !Published(b) && a.spec.RequiredOnly() ==>
          b.state == Inactive && (a.reactivate == -1 || !Satisfiable(bs2, id, a.spec)))
  }

  /** Slots only lose availability; those of unpublished fibers are untouched. */
  predicate Shrinks(fs: Pool, bs: Slots, bs2: Slots) {
    && (forall k | k in bs2 ::
          k in bs && bs2[k].provider == bs[k].provider && bs2[k].available == bs[k].available
          && (bs2[k].state == Serving ==> bs[k].state == Serving))
    && (forall k | k in bs && bs[k].provider in fs && !Published(fs[bs[k].provider]) :: k in bs2 && bs2[k] == bs[k])
  }

  /** A fiber that stays published keeps its slots. */
  predicate Kept(bs: Slots, fs2: Pool, bs2: Slots) {
    forall k | k in bs && bs[k].provider in fs2 && Published(fs2[bs[k].provider]) :: k in bs2
  }

  predicate Withdraws(fs: Pool, bs: Slots, fs2: Pool, bs2: Slots) {
    && fs2.Keys == fs.Keys
    && Kept(bs, fs2, bs2)
    && (forall x | x in fs :: Moves(x, fs[x], fs2[x], bs, bs2))
    && Shrinks(fs, bs, bs2)
  }

  lemma ShrinksSatisfiable(fs: Pool, bs: Slots, bs2: Slots, id: FiberId, c: Component)
    requires Shrinks(fs, bs, bs2)
    requires Satisfiable(bs2, id, c)
    ensures Satisfiable(bs, id, c)
  {
    forall k | k in c.RequiredKeys() ensures Resolves(bs, id, k) {
      assert Resolves(bs2, id, k);
    }
  }

  lemma WithdrawsRefl(fs: Pool, bs: Slots)
    requires Shapes(fs)
    ensures Withdraws(fs, bs, fs, bs)
  {
    forall x | x in fs ensures Moves(x, fs[x], fs[x], bs, bs) {
      assert Shape(x, fs[x]);
    }
  }

  lemma ShrinksLive(fs: Pool, bs: Slots, bs2: Slots, f: Fiber)
    requires Shrinks(fs, bs, bs2)
    ensures ViewLive(bs2, f) ==> ViewLive(bs, f)
  {}

  lemma LiveSame(bs: Slots, b: Fiber, c: Fiber)
    ensures b.committed == c.committed && ViewLive(bs, b) ==> ViewLive(bs, c)
  {}

  lemma MovesTrans(x: FiberId, a: Fiber, b: Fiber, c: Fiber, bs: Slots, bs1: Slots, bs2: Slots)
    requires Shape(x, a) && Shape(x, b) && Shape(x, c)
    requires Moves(x, a, b, bs, bs1) && Moves(x, b, c, bs1, bs2)
    requires Satisfiable(bs1, x, a.spec) ==> Satisfiable(bs, x, a.spec)
    requires Satisfiable(bs2, x, a.spec) ==> Satisfiable(bs1, x, a.spec)
    requires ViewLive(bs1, c) || (ViewLive(bs, b) && b.committed == c.committed) ==> ViewLive(bs, c)
    ensures Moves(x, a, c, bs, bs2)
  {
    hide Satisfiable, ViewLive;
  }

  lemma ShrinksTrans(fs: Pool, bs: Slots, fs1: Pool, bs1: Slots, bs2: Slots)
    requires fs1.Keys == fs.Keys && Shrinks(fs, bs, bs1) && Shrinks(fs1, bs1, bs2)
    requires forall x | x in fs :: Moves(x, fs[x], fs1[x], bs, bs1)
    ensures Shrinks(fs, bs, bs2)
  {
    hide Satisfiable, ViewLive;
    forall k | k in bs && bs[k].provider in fs && !Published(fs[bs[k].provider])
      ensures k in bs2 && bs2[k] == bs[k]
    {
      var p := bs[k].provider;
      assert Moves(p, fs[p], fs1[p], bs, bs1);
    }
  }

  lemma KeptTrans(fs: Pool, bs: Slots, fs1: Pool, bs1: Slots, fs2: Pool, bs2: Slots)
    requires fs2.Keys == fs1.Keys && Kept(bs, fs1, bs1) && Kept(bs1, fs2, bs2) && Shrinks(fs, bs, bs1)
    requires forall x | x in fs1 :: Moves(x, fs1[x], fs2[x], bs1, bs2)
    ensures Kept(bs, fs2, bs2)
  {
    hide Satisfiable, ViewLive;
    forall k | k in bs && bs[k].provider in fs2 && Published(fs2[bs[k].provider]) ensures k in bs2 {
      assert Moves(bs[k].provider, fs1[bs[k].provider], fs2[bs[k].provider], bs1, bs2);
    }
  }

  lemma WithdrawsTrans(fs: Pool, bs: Slots, fs1: Pool, bs1: Slots, fs2: Pool, bs2: Slots)
    requires Shapes(fs) && Shapes(fs1) && Shapes(fs2)
    requires Withdraws(fs, bs, fs1, bs1)
    requires Withdraws(fs1, bs1, fs2, bs2)
    ensures Withdraws(fs, bs, fs2, bs2)
  {
    hide Satisfiable, ViewLive, Shrinks, Kept, Moves, Shape;
    ShrinksTrans(fs, bs, fs1, bs1, bs2);
    KeptTrans(fs, bs, fs1, bs1, fs2, bs2);
    forall x | x in fs ensures Moves(x, fs[x], fs2[x], bs, bs2) {
      assert Moves(x, fs[x], fs1[x], bs, bs1);
      assert Moves(x, fs1[x], fs2[x], bs1, bs2);
      assert Shape(x, fs[x]) && Shape(x, fs1[x]) && Shape(x, fs2[x]);
      if Satisfiable(bs1, x, fs[x].spec) {
        ShrinksSatisfiable(fs, bs, bs1, x, fs[x].spec);
      }
      if Satisfiable(bs2, x, fs[x].spec) {
        ShrinksSatisfiable(fs1, bs1, bs2, x, fs[x].spec);
      }
      ShrinksLive(fs, bs, bs1, fs2[x]);
      LiveSame(bs, fs1[x], fs2[x]);
      MovesTrans(x, fs[x], fs1[x], fs2[x], bs, bs1, bs2);
    }
  }

  // ---------------------------------------------------------------------------------------------
  // One record replaced: the derived sets, then the invariants one by one

  predicate InMotion(f: Fiber) {
    f.state == Loading || f.state == Unloading
  }

  lemma MovingSame(fs: Pool, id: FiberId, g: Fiber)
    requires id in fs && (InMotion(g) <==> InMotion(fs[id]))
    ensures Moving(fs[id := g]) == Moving(fs)
  {}

  lemma MovingMore(fs: Pool, id: FiberId, g: Fiber)
    requires id in fs && !InMotion(fs[id]) && InMotion(g)
    ensures |Moving(fs[id := g])| == |Moving(fs)| + 1
  {
    assert Moving(fs[id := g]) == Moving(fs) + {id};
  }

  lemma MovingLess(fs: Pool, id: FiberId, g: Fiber)
    requires id in fs && InMotion(fs[id]) && !InMotion(g)
    ensures |Moving(fs[id := g])| == |Moving(fs)| - 1
  {
    assert Moving(fs[id := g]) == Moving(fs) - {id};
  }

  lemma WithdrawingAt(fs: Pool, id: FiberId, g: Fiber)
    requires id in fs && (g.activation == Unloading ==> fs[id].activation == Unloading)
    ensures Withdrawing(fs[id := g]) <= Withdrawing(fs)
    ensures g.activation == fs[id].activation ==> Withdrawing(fs[id := g]) == Withdrawing(fs)
    ensures g.activation != Unloading ==> Withdrawing(fs[id := g]) == Withdrawing(fs) - {id}
  {}

  lemma ViewsSame(fs: Pool, id: FiberId, g: Fiber)
    requires id in fs && (Published(g) <==> Published(fs[id])) && (Published(g) ==> g.committed == fs[id].committed)
    ensures Views(fs[id := g]) == Views(fs)
  {}

  lemma ViewsLess(fs: Pool, id: FiberId, g: Fiber)
    requires id in fs && Published(fs[id]) && !Published(g)
    ensures Views(fs[id := g]) == Views(fs) - {id}
  {}

  /** `g` replaces `a` without publishing it or changing what it declares or holds. */
  predicate Local(a: Fiber, g: Fiber) {
    g.spec == a.spec && (Published(g) ==> Published(a) && g.committed == a.committed)
  }

  lemma DisciplinedAt(fs: Pool, id: FiberId, g: Fiber)
    requires id in fs && Disciplined(fs) && g.spec == fs[id].spec
    ensures Disciplined(fs[id := g])
  {}

  lemma ShapesAt(fs: Pool, id: FiberId, g: Fiber)
    requires Shapes(fs) && Shape(id, g)
    ensures Shapes(fs[id := g])
  {}

  lemma StampedAt(fs: Pool, stamps: map<FiberId, nat>, id: FiberId, g: Fiber)
    requires id in fs && Stamped(fs, stamps) && Local(fs[id], g)
    ensures Stamped(fs[id := g], stamps)
  {
    forall c, p | c in fs && Relies(fs[id := g][c], p) ensures p in stamps && stamps[p] < stamps[c] {
      assert Relies(fs[c], p);
    }
  }

  lemma EdgesAt(fs: Pool, pending: set<(FiberId, FiberId)>, id: FiberId, g: Fiber)
    requires id in fs && Edges(fs, pending) && Local(fs[id], g)
    requires Published(fs[id]) ==> Published(g)
    requires g.consumers == fs[id].consumers
    ensures Edges(fs[id := g], pending)
  {
    forall p | p in fs ensures Reliers(fs[id := g], p) == Reliers(fs, p) {}
  }

  lemma CountersAt(fs: Pool, id: FiberId, g: Fiber)
    requires Counters(fs) && (g.activation == Unloading ==> g.remaining == |g.consumers|)
    ensures Counters(fs[id := g])
  {}

  lemma HoldAt(fs: Pool, bs: Slots, id: FiberId, g: Fiber, bs2: Slots)
    requires id in fs && Hold(fs, bs) && Local(fs[id], g)
    requires Published(fs[id]) && !Published(g) ==> forall c | c in fs :: !Relies(fs[c], id)
    requires forall k | k in bs && (bs[k].provider != id || Published(g)) ::
      k in bs2 && bs2[k].provider == bs[k].provider && bs2[k].available == bs[k].available
    ensures Hold(fs[id := g], bs2)
  {
    var fs2 := fs[id := g];
    forall c, k | c in fs2 && Published(fs2[c]) && k in fs2[c].committed
      ensures HeldKey(fs2, bs2, fs2[c].committed[k], k)
    {
      assert HeldKey(fs, bs, fs[c].committed[k], k);
      assert Relies(fs[c], fs[c].committed[k]);
    }
  }

  lemma SlotsAt(fs: Pool, bs: Slots, id: FiberId, g: Fiber)
    requires id in fs && SlotsOk(fs, bs) && g.spec == fs[id].spec && g.activation == fs[id].activation
    ensures SlotsOk(fs[id := g], bs)
  {}

  lemma WaitingAt(fs: Pool, bs: Slots, dirty: set<FiberId>, id: FiberId, g: Fiber, bs2: Slots)
    requires id in fs && Shrinks(fs, bs, bs2)
    requires Waiting(fs, bs, dirty) && Doomed(fs, bs)
    requires g.state == Inactive && g.spec.RequiredOnly() && g.reactivate >= 0 && !g.applyFailed && id !in dirty ==>
      !Satisfiable(bs2, id, g.spec)
    requires g.state == Unloading && g.spec.RequiredOnly() ==>
      g.reactivate == -1 || (g.activation == Unloading && !Satisfiable(bs2, id, g.spec))
    ensures Waiting(fs[id := g], bs2, dirty) && Doomed(fs[id := g], bs2)
  {
    forall x | x in fs && Satisfiable(bs2, x, fs[x].spec) ensures Satisfiable(bs, x, fs[x].spec) {
      ShrinksSatisfiable(fs, bs, bs2, x, fs[x].spec);
    }
  }

  /** What replacing one record leaves to show about what fibers may miss. */
  lemma HeededAt(fs: Pool, bs: Slots, cx: Cascade, id: FiberId, g: Fiber, bs2: Slots)
    requires id in fs && Shrinks(fs, bs, bs2) && Heeded(fs, bs, cx) && g.spec == fs[id].spec
    requires id in cx.again ==> g.reactivate != 0 && !Published(g)
    requires g.activation == Unloading && g.reactivate == 0 ==> !Satisfiable(bs2, id, g.spec)
    requires id in cx.watched && id !in cx.dirty && id !in cx.again ==> Minded(bs2, id, g)
    ensures Heeded(fs[id := g], bs2, cx)
  {
    hide Published;
    forall x | x in fs && x != id
      ensures Satisfiable(bs2, x, fs[x].spec) ==> Satisfiable(bs, x, fs[x].spec)
      ensures Minded(bs, x, fs[x]) ==> Minded(bs2, x, fs[x])
    {
      MindedKept(fs, bs, bs2, x, fs[x]);
    }
  }

  lemma MindedKept(fs: Pool, bs: Slots, bs2: Slots, x: FiberId, f: Fiber)
    requires Shrinks(fs, bs, bs2)
    ensures Satisfiable(bs2, x, f.spec) ==> Satisfiable(bs, x, f.spec)
    ensures Minded(bs, x, f) ==> Minded(bs2, x, f)
  {
    if Satisfiable(bs2, x, f.spec) {
      ShrinksSatisfiable(fs, bs, bs2, x, f.spec);
    }
    forall k | Resolves(bs2, x, k) ensures Resolves(bs, x, k) {}
  }

  /** A record that differs in nothing that matters to its target. */
  lemma MindedSame(bs: Slots, x: FiberId, f: Fiber, g: Fiber)
    requires Minded(bs, x, f)
    requires g.spec == f.spec && g.state == f.state && g.committed == f.committed && g.applyFailed == f.applyFailed
    requires g.reactivate >= 0 ==> f.reactivate >= 0
    ensures Minded(bs, x, g)
  {}

  lemma MovesAt(fs: Pool, bs: Slots, id: FiberId, g: Fiber, bs2: Slots)
    requires id in fs && Shrinks(fs, bs, bs2)
    requires Moves(id, fs[id], g, bs, bs2) && Kept(bs, fs[id := g], bs2)
    ensures Withdraws(fs, bs, fs[id := g], bs2)
  {}

  // ---------------------------------------------------------------------------------------------
  // Raising the re-entry flag, and unloading a fiber whose apply is in flight

  /** Only the flag (without lifting a retirement), the recorded error or the stop flag differ. */
  predicate Retouched(id: FiberId, f: Fiber, g: Fiber) {
    && g == f.(reactivate := g.reactivate, error := g.error, stopRequested := g.stopRequested)
    && (g.reactivate == -1 <==> f.reactivate == -1)
    && (f.activation == Loading ==> g.stopRequested == f.stopRequested)
    && Shape(id, g)
  }

  lemma Touch(fs: Pool, bs: Slots, stamps: map<FiberId, nat>, cx: Cascade, id: FiberId, g: Fiber)
    requires Inv(fs, bs, stamps, cx) && id in fs
    requires Retouched(id, fs[id], g)
    requires g.reactivate != 0 || fs[id].reactivate == 0 || (id !in cx.again && fs[id].activation != Unloading)
    ensures Inv(fs[id := g], bs, stamps, cx)
    ensures Withdraws(fs, bs, fs[id := g], bs)
    ensures Moving(fs[id := g]) == Moving(fs)
  {
    assert Shape(id, fs[id]);
    DisciplinedAt(fs, id, g);
    ShapesAt(fs, id, g);
    EdgesAt(fs, cx.pending, id, g);
    HoldAt(fs, bs, id, g, bs);
    SlotsAt(fs, bs, id, g);
    CountersAt(fs, id, g);
    StampedAt(fs, stamps, id, g);
    WaitingAt(fs, bs, cx.dirty, id, g, bs);
    TouchHeeded(fs, bs, cx, id, g);
    MovesAt(fs, bs, id, g, bs);
    MovingSame(fs, id, g);
  }

  lemma TouchHeeded(fs: Pool, bs: Slots, cx: Cascade, id: FiberId, g: Fiber)
    requires Heeded(fs, bs, cx) && id in fs && Shape(id, fs[id]) && Retouched(id, fs[id], g)
    requires g.reactivate != 0 || fs[id].reactivate == 0 || (id !in cx.again && fs[id].activation != Unloading)
    ensures Heeded(fs[id := g], bs, cx)
  {
    hide Satisfiable, Resolves, ViewFull;
    if Minded(bs, id, fs[id]) {
      MindedSame(bs, id, fs[id], g);
    }
    HeededAt(fs, bs, cx, id, g, bs);
  }

  function Diverted(f: Fiber): Fiber {
    f.(state := Unloading, stopRequested := true)
  }

  lemma Divert(fs: Pool, bs: Slots, stamps: map<FiberId, nat>, cx: Cascade, id: FiberId)
    requires Inv(fs, bs, stamps, cx) && id in fs
    requires fs[id].state == Loading
    requires fs[id].spec.RequiredOnly() ==> fs[id].reactivate == -1
    ensures Inv(fs[id := Diverted(fs[id])], bs, stamps, cx)
  {
    var g := Diverted(fs[id]);
    assert Shape(id, fs[id]);
    DisciplinedAt(fs, id, g);
    ShapesAt(fs, id, g);
    EdgesAt(fs, cx.pending, id, g);
    HoldAt(fs, bs, id, g, bs);
    SlotsAt(fs, bs, id, g);
    CountersAt(fs, id, g);
    StampedAt(fs, stamps, id, g);
    WaitingAt(fs, bs, cx.dirty, id, g, bs);
    HeededAt(fs, bs, cx, id, g, bs);
  }

  // ---------------------------------------------------------------------------------------------
  // Unloading an active fiber: state, slots and guard counter

  function Flipped(f: Fiber): Fiber {
    f.(state := Unloading, activation := Unloading, remaining := |f.consumers|)
  }

  function RetireSlots(bs: Slots, id: FiberId): Slots {
    map k | k in bs :: if bs[k].provider == id then bs[k].(state := Retiring) else bs[k]
  }

  lemma FlipSlots(fs: Pool, bs: Slots, id: FiberId)
    requires id in fs && fs[id].activation == Active && SlotsOk(fs, bs)
    ensures SlotsOk(fs[id := Flipped(fs[id])], RetireSlots(bs, id))
    ensures Shrinks(fs, bs, RetireSlots(bs, id))
  {}

  lemma Flip(fs: Pool, bs: Slots, stamps: map<FiberId, nat>, cx: Cascade, id: FiberId)
    requires Inv(fs, bs, stamps, cx) && id in fs
    requires fs[id].state == Active
    requires fs[id].spec.RequiredOnly() ==> fs[id].reactivate == -1 || !Satisfiable(bs, id, fs[id].spec)
    requires fs[id].reactivate == 0 ==> !Satisfiable(bs, id, fs[id].spec)
    ensures Inv(fs[id := Flipped(fs[id])], RetireSlots(bs, id), stamps, cx.(dirty := cx.dirty - {id}))
    ensures Withdraws(fs, bs, fs[id := Flipped(fs[id])], RetireSlots(bs, id))
  {
    var g, bs2 := Flipped(fs[id]), RetireSlots(bs, id);
    assert Shape(id, fs[id]);
    FlipSlots(fs, bs, id);
    DisciplinedAt(fs, id, g);
    ShapesAt(fs, id, g);
    EdgesAt(fs, cx.pending, id, g);
    HoldAt(fs, bs, id, g, bs2);
    CountersAt(fs, id, g);
    StampedAt(fs, stamps, id, g);
    if Satisfiable(bs2, id, g.spec) {
      ShrinksSatisfiable(fs, bs, bs2, id, g.spec);
    }
    WaitingAt(fs, bs, cx.dirty, id, g, bs2);
    HeededAt(fs, bs, cx, id, g, bs2);
    MovesAt(fs, bs, id, g, bs2);
    AwayClean(fs[id := g], bs2, cx, id);
  }

  /** A fiber that is neither inactive nor active owes no evaluation. */
  lemma AwayClean(fs: Pool, bs: Slots, cx: Cascade, id: FiberId)
    requires Waiting(fs, bs, cx.dirty) && Heeded(fs, bs, cx) && id in fs && InMotion(fs[id])
    ensures Waiting(fs, bs, cx.dirty - {id}) && Heeded(fs, bs, cx.(dirty := cx.dirty - {id}))
  {
    hide Satisfiable, ViewFull;
  }

  lemma FlipSets(fs: Pool, id: FiberId)
    requires id in fs && fs[id].activation == Active
    ensures Actives(fs[id := Flipped(fs[id])]) == Actives(fs) - {id} && id in Actives(fs)
    ensures Withdrawing(fs[id := Flipped(fs[id])]) == Withdrawing(fs) + {id}
  {}

  // ---------------------------------------------------------------------------------------------
  // Tearing a withdrawing fiber down

  function Emptied(f: Fiber): Fiber {
    f.(state := Inactive, activation := Inactive, committed := map[])
  }

  function Unbind(bs: Slots, id: FiberId): Slots {
    map k | k in bs && bs[k].provider != id :: bs[k]
  }

  function EdgesOf(id: FiberId, view: map<ServiceId, FiberId>): set<(FiberId, FiberId)> {
    set p | p in view.Values :: (id, p)
  }

  lemma OwedOf(pending: set<(FiberId, FiberId)>, id: FiberId, view: map<ServiceId, FiberId>, p: FiberId)
    ensures Owed(pending + EdgesOf(id, view), p) == Owed(pending, p) + if p in view.Values then {id} else {}
  {
    if p in view.Values {
      assert (id, p) in EdgesOf(id, view);
    }
    var l, r := Owed(pending + EdgesOf(id, view), p), Owed(pending, p) + if p in view.Values then {id} else {};
    forall c | c in l ensures c in r {
      var e :| e in pending + EdgesOf(id, view) && e.1 == p && e.0 == c;
    }
    forall c | c in r ensures c in l {
      if c in Owed(pending, p) {
        assert (c, p) in pending;
      }
    }
  }

  lemma NoReliers(fs: Pool, pending: set<(FiberId, FiberId)>, id: FiberId)
    requires Edges(fs, pending) && Counters(fs) && id in fs
    requires fs[id].activation == Unloading && fs[id].remaining == 0
    ensures fs[id].consumers == {}
    ensures forall c | c in fs :: !Relies(fs[c], id)
    ensures forall e | e in pending :: e.1 != id
  {
    assert fs[id].consumers == Reliers(fs, id) + Owed(pending, id);
    forall c | c in fs ensures !Relies(fs[c], id) {
      assert c in Reliers(fs, id) <==> Relies(fs[c], id);
    }
    forall e | e in pending ensures e.1 != id {
      assert e.1 == id ==> e.0 in Owed(pending, id);
    }
  }

  lemma TearDownConsumers(fs: Pool, pending: set<(FiberId, FiberId)>, id: FiberId, p: FiberId)
    requires Edges(fs, pending) && id in fs && p in fs && Published(fs[id])
    ensures fs[p].consumers
         == Reliers(fs[id := Emptied(fs[id])], p) + Owed(pending + EdgesOf(id, fs[id].committed), p)
  {
    OwedOf(pending, id, fs[id].committed, p);
    assert Reliers(fs[id := Emptied(fs[id])], p) == Reliers(fs, p) - {id};
    assert fs[p].consumers == Reliers(fs, p) + Owed(pending, p);
    assert id in Owed(pending, p) ==> (id, p) in pending;
  }

  lemma TearDownEdges(fs: Pool, bs: Slots, pending: set<(FiberId, FiberId)>, id: FiberId)
    requires Edges(fs, pending) && Hold(fs, bs) && SlotsOk(fs, bs) && id in fs && Published(fs[id])
    requires forall e | e in pending :: e.1 != id
    requires id !in fs[id].committed.Values
    ensures Edges(fs[id := Emptied(fs[id])], pending + EdgesOf(id, fs[id].committed))
  {
    var fs2 := fs[id := Emptied(fs[id])];
    var pending2 := pending + EdgesOf(id, fs[id].committed);
    forall p | p in fs2 ensures fs2[p].consumers == Reliers(fs2, p) + Owed(pending2, p) {
      TearDownConsumers(fs, pending, id, p);
    }
    forall e | e in pending2
      ensures e.0 in fs2 && !Published(fs2[e.0]) && e.1 in fs2 && Published(fs2[e.1]) && fs2[e.1].spec.provide != {}
    {
      if e !in pending {
        var k :| k in fs[id].committed && fs[id].committed[k] == e.1;
        assert HeldKey(fs, bs, fs[id].committed[k], k);
      }
    }
  }

  lemma TearDownSlots(fs: Pool, bs: Slots, id: FiberId)
    requires id in fs && Published(fs[id]) && SlotsOk(fs, bs)
    ensures SlotsOk(fs[id := Emptied(fs[id])], Unbind(bs, id))
    ensures Shrinks(fs, bs, Unbind(bs, id))
  {}

  lemma TearDown(fs: Pool, bs: Slots, stamps: map<FiberId, nat>, cx: Cascade, id: FiberId)
    requires Inv(fs, bs, stamps, cx) && id in fs
    requires fs[id].activation == Unloading && fs[id].remaining == 0
    ensures fs[id].consumers == {}
    ensures forall c | c in fs :: !Relies(fs[c], id)
    ensures Inv(fs[id := Emptied(fs[id])], Unbind(bs, id), stamps, TornCascade(cx, id, fs[id]))
    ensures Withdraws(fs, bs, fs[id := Emptied(fs[id])], Unbind(bs, id))
    ensures fs[id].spec.RequiredOnly() ==> fs[id].reactivate == -1 || !Satisfiable(Unbind(bs, id), id, fs[id].spec)
  {
    var g, bs2 := Emptied(fs[id]), Unbind(bs, id);
    assert Shape(id, fs[id]);
    NoReliers(fs, cx.pending, id);
    TearDownSlots(fs, bs, id);
    TearDownEdges(fs, bs, cx.pending, id);
    DisciplinedAt(fs, id, g);
    ShapesAt(fs, id, g);
    HoldAt(fs, bs, id, g, bs2);
    CountersAt(fs, id, g);
    StampedAt(fs, stamps, id, g);
    if Satisfiable(bs2, id, g.spec) {
      ShrinksSatisfiable(fs, bs, bs2, id, g.spec);
    }
    WaitingAt(fs, bs, cx.dirty, id, g, bs2);
    TearDownHeeded(fs, bs, cx, id);
    MovesAt(fs, bs, id, g, bs2);
  }

  /** A torn down fiber owes its edges, and its re-entry when it was asked for. */
  function TornCascade(cx: Cascade, id: FiberId, f: Fiber): Cascade {
    cx.(pending := cx.pending + EdgesOf(id, f.committed), again := cx.again + Recalled(id, f))
  }

  function Recalled(id: FiberId, f: Fiber): set<FiberId> {
    if f.reactivate > 0 then {id} else {}
  }

  lemma TearDownHeeded(fs: Pool, bs: Slots, cx: Cascade, id: FiberId)
    requires id in fs && fs[id].activation == Unloading && Shape(id, fs[id]) && Heeded(fs, bs, cx) && Shrinks(fs, bs, Unbind(bs, id))
    ensures Heeded(fs[id := Emptied(fs[id])], Unbind(bs, id), TornCascade(cx, id, fs[id]))
  {
    hide Satisfiable, ViewFull, Unbind, Shrinks;
    var g, bs2 := Emptied(fs[id]), Unbind(bs, id);
    MindedKept(fs, bs, bs2, id, g);
    HeededAt(fs, bs, cx.(watched := cx.watched - Recalled(id, fs[id])), id, g, bs2);
  }

  lemma TearDownSets(fs: Pool, id: FiberId)
    requires id in fs && fs[id].activation == Unloading
    ensures Actives(fs[id := Emptied(fs[id])]) == Actives(fs)
    ensures Withdrawing(fs[id := Emptied(fs[id])]) == Withdrawing(fs) - {id} && id in Withdrawing(fs)
  {}

  // ---------------------------------------------------------------------------------------------
  // Erasing one edge of a finishing fiber

  function Dropped(f: Fiber, c: FiberId): Fiber {
    f.(consumers := f.consumers - {c}, remaining := if f.remaining > 0 then f.remaining - 1 else 0)
  }

  lemma OwedLess(pending: set<(FiberId, FiberId)>, c: FiberId, p: FiberId, q: FiberId)
    ensures Owed(pending - {(c, p)}, q) == Owed(pending, q) - if q == p then {c} else {}
  {
    forall x | x in Owed(pending, q) - if q == p then {c} else {} ensures x in Owed(pending - {(c, p)}, q) {
      assert (x, q) in pending;
      assert (x, q) in pending - {(c, p)};
    }
  }

  lemma DropEdgeEdges(fs: Pool, pending: set<(FiberId, FiberId)>, c: FiberId, p: FiberId)
    requires Edges(fs, pending)
    requires (c, p) in pending
    ensures p in fs && c in fs[p].consumers
    ensures Edges(fs[p := Dropped(fs[p], c)], pending - {(c, p)})
  {
    var fs2 := fs[p := Dropped(fs[p], c)];
    assert c in Owed(pending, p);
    assert fs[p].consumers == Reliers(fs, p) + Owed(pending, p);
    forall q | q in fs2 ensures fs2[q].consumers == Reliers(fs2, q) + Owed(pending - {(c, p)}, q) {
      OwedLess(pending, c, p, q);
      assert Reliers(fs2, q) == Reliers(fs, q);
      assert c !in Reliers(fs, q);
      assert fs[q].consumers == Reliers(fs, q) + Owed(pending, q);
    }
  }

  lemma DropEdge(fs: Pool, bs: Slots, stamps: map<FiberId, nat>, cx: Cascade, c: FiberId, p: FiberId)
    requires Inv(fs, bs, stamps, cx)
    requires (c, p) in cx.pending
    ensures p in fs && c in fs[p].consumers && (fs[p].remaining > 0 ==> fs[p].activation == Unloading)
    ensures Inv(fs[p := Dropped(fs[p], c)], bs, stamps, cx.(pending := cx.pending - {(c, p)}))
    ensures Withdraws(fs, bs, fs[p := Dropped(fs[p], c)], bs)
  {
    hide Disciplined, Shapes, Edges, Hold, Counters, Stamped, SlotsOk, Waiting, Doomed, Heeded, Withdraws, Satisfiable, Shape;
    DropEdgeEdges(fs, cx.pending, c, p);
    var g := Dropped(fs[p], c);
    DroppedShape(fs, p, c);
    DroppedCount(fs, p, c);
    DisciplinedAt(fs, p, g);
    ShapesAt(fs, p, g);
    HoldAt(fs, bs, p, g, bs);
    SlotsAt(fs, bs, p, g);
    CountersAt(fs, p, g);
    StampedAt(fs, stamps, p, g);
    DroppedMoves(fs, bs, cx.dirty, p, c);
    DroppedHeeded(fs, bs, cx, p, c);
  }

  lemma DroppedHeeded(fs: Pool, bs: Slots, cx: Cascade, p: FiberId, c: FiberId)
    requires p in fs && Heeded(fs, bs, cx)
    ensures Heeded(fs[p := Dropped(fs[p], c)], bs, cx.(pending := cx.pending - {(c, p)}))
  {
    hide Satisfiable, ViewFull;
    if Minded(bs, p, fs[p]) {
      MindedSame(bs, p, fs[p], Dropped(fs[p], c));
    }
    HeededAt(fs, bs, cx, p, Dropped(fs[p], c), bs);
  }

  lemma DroppedShape(fs: Pool, p: FiberId, c: FiberId)
    requires Shapes(fs) && p in fs
    ensures Shape(p, Dropped(fs[p], c)) && (fs[p].remaining > 0 ==> fs[p].activation == Unloading)
  {
    assert Shape(p, fs[p]);
  }

  lemma DroppedCount(fs: Pool, p: FiberId, c: FiberId)
    requires Counters(fs) && p in fs && c in fs[p].consumers
    ensures fs[p].activation == Unloading ==> Dropped(fs[p], c).remaining == |Dropped(fs[p], c).consumers|
  {}

  lemma DroppedMoves(fs: Pool, bs: Slots, dirty: set<FiberId>, p: FiberId, c: FiberId)
    requires Waiting(fs, bs, dirty) && Doomed(fs, bs) && Shapes(fs) && p in fs
    ensures Waiting(fs[p := Dropped(fs[p], c)], bs, dirty) && Doomed(fs[p := Dropped(fs[p], c)], bs)
    ensures Withdraws(fs, bs, fs[p := Dropped(fs[p], c)], bs)
  {
    hide Satisfiable;
    WithdrawsRefl(fs, bs);
    assert Shape(p, fs[p]);
    WaitingAt(fs, bs, dirty, p, Dropped(fs[p], c), bs);
    MovesAt(fs, bs, p, Dropped(fs[p], c), bs);
  }

  // ---------------------------------------------------------------------------------------------
  // Starting to load

  function Started(f: Fiber, view: map<ServiceId, FiberId>): Fiber {
    f.(state := Loading, activation := Loading, committed := view, error := None, applyFailed := false,
       stopRequested := false)
  }

  lemma StartShape(fs: Pool, bs: Slots, id: FiberId)
    requires Disciplined(fs) && SlotsOk(fs, bs) && id in fs
    requires Shape(id, fs[id]) && fs[id].state == Inactive
    requires Satisfiable(bs, id, fs[id].spec)
    ensures Shape(id, Started(fs[id], Resolution(bs, id, fs[id].spec)))
  {
    var view := Resolution(bs, id, fs[id].spec);
    forall k | k in fs[id].spec.RequiredKeys() ensures k in view {
      assert Resolves(bs, id, k);
    }
    forall k1, k2 | k1 in view && k2 in view && k1 != k2 ensures view[k1] != view[k2] {
      assert k1 in fs[view[k1]].spec.provide && k2 in fs[view[k2]].spec.provide;
      assert Admissible(fs[view[k1]].spec);
    }
  }

  lemma StartSlots(fs: Pool, bs: Slots, id: FiberId, view: map<ServiceId, FiberId>)
    requires id in fs && fs[id].activation == Inactive && SlotsOk(fs, bs)
    ensures SlotsOk(fs[id := Started(fs[id], view)], bs)
  {}

  lemma Start(fs: Pool, bs: Slots, stamps: map<FiberId, nat>, cx: Cascade, id: FiberId)
    requires Inv(fs, bs, stamps, cx) && id in fs
    requires fs[id].state == Inactive && fs[id].reactivate >= 0 && !fs[id].applyFailed
    requires Satisfiable(bs, id, fs[id].spec)
    ensures Inv(fs[id := Started(fs[id], Resolution(bs, id, fs[id].spec))], bs, stamps, cx.(dirty := cx.dirty - {id}))
    ensures Withdraws(fs, bs, fs[id := Started(fs[id], Resolution(bs, id, fs[id].spec))], bs)
  {
    hide Edges, Counters, Stamped, Hold, Disciplined;
    var view := Resolution(bs, id, fs[id].spec);
    var g := Started(fs[id], view);
    assert Shape(id, fs[id]);
    StartShape(fs, bs, id);
    StartSlots(fs, bs, id, view);
    DisciplinedAt(fs, id, g);
    ShapesAt(fs, id, g);
    EdgesAt(fs, cx.pending, id, g);
    HoldAt(fs, bs, id, g, bs);
    CountersAt(fs, id, g);
    StampedAt(fs, stamps, id, g);
    WaitingAt(fs, bs, cx.dirty, id, g, bs);
    HeededAt(fs, bs, cx, id, g, bs);
    AwayClean(fs[id := g], bs, cx, id);
    MovesAt(fs, bs, id, g, bs);
  }

  // ---------------------------------------------------------------------------------------------
  // Consequences used along a cascade

  /** Whoever relies on a fiber that left Active cannot be satisfied. */
  lemma LostProvider(fs: Pool, bs: Slots, c: FiberId, p: FiberId)
    requires c in fs && p in fs && Hold(fs, bs) && SlotsOk(fs, bs) && Shapes(fs)
    requires Relies(fs[c], p) && fs[p].activation != Active
    requires fs[c].spec.RequiredOnly()
    ensures !Satisfiable(bs, c, fs[c].spec)
  {
    var k :| k in fs[c].committed && fs[c].committed[k] == p;
    assert HeldKey(fs, bs, p, k);
    assert Shape(c, fs[c]);
    assert k in fs[c].spec.RequiredKeys();
    assert !Resolves(bs, c, k);
  }

  lemma ReliedInstalled(fs: Pool, bs: Slots, c: FiberId, p: FiberId)
    requires c in fs && Hold(fs, bs) && Relies(fs[c], p)
    ensures p in fs && Published(fs[p])
  {
    var k :| k in fs[c].committed && fs[c].committed[k] == p;
    assert HeldKey(fs, bs, p, k);
  }

  /** Only a fiber that provides something is relied on. */
  lemma RelianceProvides(fs: Pool, bs: Slots, c: FiberId, p: FiberId)
    requires c in fs && Hold(fs, bs) && SlotsOk(fs, bs) && Relies(fs[c], p)
    ensures p in fs && Published(fs[p]) && fs[p].spec.provide != {}
  {
    var k :| k in fs[c].committed && fs[c].committed[k] == p;
    assert HeldKey(fs, bs, p, k);
  }

  /** A key nobody is bound to is not declared by any published fiber that needs all its keys. */
  lemma UnboundUnheld(fs: Pool, bs: Slots, c: FiberId, k: ServiceId)
    requires c in fs && Hold(fs, bs) && Shapes(fs)
    requires Published(fs[c]) && fs[c].spec.RequiredOnly() && k in fs[c].spec.Keys()
    ensures k in bs && bs[k].available && bs[k].provider in fs && Published(fs[bs[k].provider])
    ensures k in fs[c].committed && fs[c].committed[k] == bs[k].provider
  {
    assert Shape(c, fs[c]);
    assert HeldKey(fs, bs, fs[c].committed[k], k);
  }

  /** Closed under "relies on a member". */
  ghost predicate Closed(fs: Pool, scope: set<FiberId>) {
    forall c, p | c in fs && p in scope && Relies(fs[c], p) :: c in scope
  }

  lemma ClosedKept(fs: Pool, bs: Slots, fs2: Pool, bs2: Slots, scope: set<FiberId>)
    requires Closed(fs, scope) && Withdraws(fs, bs, fs2, bs2)
    ensures Closed(fs2, scope)
  {
    forall c, p | c in fs2 && p in scope && Relies(fs2[c], p) ensures c in scope {
      assert Moves(c, fs[c], fs2[c], bs, bs2);
      assert Relies(fs[c], p);
    }
  }

  /** A re-flagged or diverted member of the cascade is still a legal outcome of it. */
  lemma WithdrawsTouched(fs: Pool, bs: Slots, fs2: Pool, bs2: Slots, c: FiberId, g: Fiber)
    requires Withdraws(fs, bs, fs2, bs2) && c in fs
    requires Published(fs[c]) && !Published(fs2[c])
    requires g.spec == fs2[c].spec && g.applyFailed == fs2[c].applyFailed && !Published(g)
    requires g.reactivate == -1 <==> fs2[c].reactivate == -1
    requires fs[c].spec.RequiredOnly() ==> g.state == Inactive
    requires g.state == Loading ==> fs2[c].state == Loading
    ensures Withdraws(fs, bs, fs2[c := g], bs2)
  {
    assert Moves(c, fs[c], fs2[c], bs, bs2);
  }

  // ---------------------------------------------------------------------------------------------
  // The log

  lemma HeldSnoc(log: seq<Event>, e: Event)
    ensures Held(log + [e]) == HeldAfter(Held(log), e)
  {
    assert (log + [e])[..|log|] == log;
  }

  lemma OrderedSnoc(log: seq<Event>, e: Event)
    requires Ordered(log) && Legal(Held(log), e)
    ensures Ordered(log + [e])
  {
    hide Legal, Held;
    forall i | 0 <= i < |log + [e]| ensures Legal(Held((log + [e])[..i]), (log + [e])[i]) {
      if i < |log| {
        assert (log + [e])[..i] == log[..i];
      } else {
        assert (log + [e])[..i] == log;
      }
    }
  }

  lemma LogKept(log: seq<Event>, fs: Pool, id: FiberId, g: Fiber)
    requires LogOk(log, fs) && id in fs
    requires (Published(g) <==> Published(fs[id])) && (Published(g) ==> g.committed == fs[id].committed)
    ensures LogOk(log, fs[id := g])
  {
    ViewsSame(fs, id, g);
  }

  lemma LogTearDown(log: seq<Event>, fs: Pool, id: FiberId, g: Fiber)
    requires LogOk(log, fs) && id in fs && Published(fs[id]) && !Published(g)
    requires forall c | c in fs :: !Relies(fs[c], id)
    ensures LogOk(log + [TornDown(id)], fs[id := g])
  {
    HeldSnoc(log, TornDown(id));
    ViewsLess(fs, id, g);
    assert !Named(Held(log), id) by {
      forall c | c in Held(log) ensures id !in Held(log)[c].Values {
        assert !Relies(fs[c], id);
      }
    }
    OrderedSnoc(log, TornDown(id));
  }
}
