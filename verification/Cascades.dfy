/**
  The whole state of the engine as one value, its invariant, and what each step of a withdrawal
  cascade does to it. The engine's methods lean on these lemmas only.
 */
module Cascades {
  import opened Fibers
  import opened FiberSteps

  datatype World = World(
    fibers: Pool,
    slots: Slots,
    index: map<ServiceId, set<FiberId>>,
    nextId: FiberId,
    stamps: map<FiberId, nat>,
    clock: nat,
    log: seq<Event>)

  /** The consumer index lists exactly the fibers declaring a key. */
  ghost predicate Indexed(w: World) {
    && (forall x, k | x in w.fibers && k in w.fibers[x].spec.Keys() :: k in w.index && x in w.index[k])
    && (forall k, x | k in w.index && x in w.index[k] :: x in w.fibers && k in w.fibers[x].spec.Keys())
  }

  ghost predicate Bounded(w: World) {
    && (forall x | x in w.stamps :: w.stamps[x] < w.clock)
    && (forall x | x in w.fibers :: x < w.nextId)
  }

  /** The invariant at any point of a cascade. */
  ghost predicate Sound(w: World, cx: Cascade) {
    && Inv(w.fibers, w.slots, w.stamps, cx)
    && LogOk(w.log, w.fibers)
    && Indexed(w)
    && Bounded(w)
  }

  /** What any part of a cascade guarantees. */
  ghost predicate Leads(v: World, w: World) {
    && Withdraws(v.fibers, v.slots, w.fibers, w.slots)
    && w.(fibers := v.fibers, slots := v.slots, log := v.log) == v
    && v.log <= w.log
  }

  /** Nothing more is left withdrawing. */
  ghost predicate Calm(v: World, w: World) {
    Withdrawing(w.fibers) <= Withdrawing(v.fibers)
  }

  /** Among fibers that need all their keys, only members of `scope` and fibers that were already
      withdrawing stopped being published. */
  ghost predicate Spared(v: World, w: World, scope: set<FiberId>) {
    forall x | x in v.fibers && x in w.fibers && v.fibers[x].spec.RequiredOnly()
               && Published(v.fibers[x]) && !Published(w.fibers[x]) ::
      x in scope || v.fibers[x].activation == Unloading
  }

  /** Sizes for the termination of the re-entrant calls. */
  ghost predicate Shrunk(v: World, w: World) {
    && Actives(w.fibers) <= Actives(v.fibers)
    && (Actives(w.fibers) == Actives(v.fibers) ==> Withdrawing(w.fibers) <= Withdrawing(v.fibers))
  }

  /**
    When an active fiber may be unloaded inside a cascade: it is retired or has lost a provider (or
    has optional dependencies), and either it provides nothing, or no edge is owed and everything
    that is withdrawing was published before it.
   */
  ghost predicate Unloadable(w: World, id: FiberId, cx: Cascade, scope: set<FiberId>)
    requires id in w.fibers
  {
    var f := w.fibers[id];
    && (f.spec.RequiredOnly() ==> f.reactivate == -1 || !Satisfiable(w.slots, id, f.spec))
    && id in scope
    && Closed(w.fibers, scope)
    && (f.spec.provide != {} ==>
          cx.pending == {}
          && id in w.stamps
          && forall u | u in Withdrawing(w.fibers) :: u in w.stamps && w.stamps[u] < w.stamps[id])
  }

  // ---------------------------------------------------------------------------------------------

  lemma LeadsRefl(w: World, cx: Cascade)
    requires Sound(w, cx)
    ensures Leads(w, w) && Calm(w, w) && Spared(w, w, {}) && Shrunk(w, w)
  {
    WithdrawsRefl(w.fibers, w.slots);
  }

  lemma LeadsShrunk(v: World, w: World)
    requires Leads(v, w)
    ensures Actives(w.fibers) <= Actives(v.fibers)
    ensures Calm(v, w) ==> Shrunk(v, w)
  {
    forall x | x in Actives(w.fibers) ensures x in Actives(v.fibers) {
      assert Moves(x, v.fibers[x], w.fibers[x], v.slots, w.slots);
    }
  }

  lemma LeadsTrans(u: World, cu: Cascade, v: World, cv: Cascade, w: World, cw: Cascade)
    requires Sound(u, cu) && Sound(v, cv) && Sound(w, cw)
    requires Leads(u, v) && Leads(v, w)
    ensures Leads(u, w)
    ensures Calm(u, v) && Calm(v, w) ==> Calm(u, w)
  {
    WithdrawsTrans(u.fibers, u.slots, v.fibers, v.slots, w.fibers, w.slots);
  }

  lemma SparedTrans(u: World, v: World, w: World, scope: set<FiberId>)
    requires Leads(u, v) && Leads(v, w) && Calm(u, v)
    requires Spared(u, v, scope) && Spared(v, w, scope)
    ensures Spared(u, w, scope)
  {
    forall x | x in u.fibers && x in w.fibers && u.fibers[x].spec.RequiredOnly()
               && Published(u.fibers[x]) && !Published(w.fibers[x])
      ensures x in scope || u.fibers[x].activation == Unloading
    {
      assert Moves(x, u.fibers[x], v.fibers[x], u.slots, v.slots);
      assert x in Withdrawing(v.fibers) ==> x in Withdrawing(u.fibers);
    }
  }

  /** Fewer fibers owed an evaluation is a stronger invariant. */
  lemma SoundWeaken(w: World, cx: Cascade, dirty: set<FiberId>)
    requires Sound(w, cx) && cx.dirty <= dirty
    ensures Sound(w, cx.(dirty := dirty))
  {}

  lemma ShapeOf(w: World, cx: Cascade, id: FiberId)
    requires Sound(w, cx) && id in w.fibers
    ensures Shape(id, w.fibers[id])
    ensures w.fibers[id].state == Inactive <==> w.fibers[id].activation == Inactive
    ensures w.fibers[id].state == Loading ==> w.fibers[id].activation == Loading
    ensures w.fibers[id].state == Active <==> w.fibers[id].activation == Active
    ensures w.fibers[id].activation == Unloading ==> w.fibers[id].state == Unloading
    ensures w.fibers[id].state == Inactive ==> !Published(w.fibers[id])
    ensures -1 <= w.fibers[id].reactivate <= 1
  {}

  /** How many transitions are open does not matter to the rest of the invariant. */
  lemma SoundFrames(w: World, cx: Cascade, frames: nat)
    requires Sound(w, cx)
    ensures Sound(w, cx.(frames := frames))
  {}

  lemma SpecsIndexed(v: World, w: World)
    requires Indexed(v) && Bounded(v) && w.fibers.Keys == v.fibers.Keys
    requires w.(fibers := v.fibers, slots := v.slots, log := v.log) == v
    requires forall x | x in v.fibers :: w.fibers[x].spec == v.fibers[x].spec
    ensures Indexed(w) && Bounded(w)
  {}

  lemma StartStep(w: World, cx: Cascade, id: FiberId, view: map<ServiceId, FiberId>)
    requires Sound(w, cx) && id in w.fibers
    requires w.fibers[id].state == Inactive && w.fibers[id].reactivate >= 0 && !w.fibers[id].applyFailed
    requires Satisfiable(w.slots, id, w.fibers[id].spec)
    requires view == Resolution(w.slots, id, w.fibers[id].spec)
    ensures
      var w2 := w.(fibers := w.fibers[id := Started(w.fibers[id], view)]);
      && Sound(w2, cx.(dirty := cx.dirty - {id}))
      && Leads(w, w2) && Calm(w, w2) && Spared(w, w2, {})
      && |Moving(w2.fibers)| == |Moving(w.fibers)| + 1
  {
    hide Inv, Withdraws, Satisfiable, Resolution, LogOk, Shape, Moving, Withdrawing, Indexed, Bounded;
    var g := Started(w.fibers[id], view);
    ShapeOf(w, cx, id);
    WithdrawingAt(w.fibers, id, g);
    Start(w.fibers, w.slots, w.stamps, cx, id);
    MovingMore(w.fibers, id, g);
    LogKept(w.log, w.fibers, id, g);
    SpecsIndexed(w, w.(fibers := w.fibers[id := g]));
  }

  lemma TouchStep(w: World, cx: Cascade, id: FiberId, g: Fiber)
    requires Sound(w, cx) && id in w.fibers
    requires Retouched(id, w.fibers[id], g)
    requires g.reactivate != 0 || w.fibers[id].reactivate == 0 || (id !in cx.again && w.fibers[id].activation != Unloading)
    ensures
      var w2 := w.(fibers := w.fibers[id := g]);
      && Sound(w2, cx)
      && Leads(w, w2) && Calm(w, w2) && Spared(w, w2, {})
      && |Moving(w2.fibers)| == |Moving(w.fibers)|
  {
    hide Inv, Withdraws, Satisfiable, LogOk, Shape, Moving, Withdrawing, Indexed, Bounded;
    WithdrawingAt(w.fibers, id, g);
    LogKept(w.log, w.fibers, id, g);
    Touch(w.fibers, w.slots, w.stamps, cx, id, g);
    SpecsIndexed(w, w.(fibers := w.fibers[id := g]));
  }

  lemma RecordsAt(w: World, id: FiberId, g: Fiber)
    requires LogOk(w.log, w.fibers) && Indexed(w) && Bounded(w) && id in w.fibers && g.spec == w.fibers[id].spec
    requires (Published(g) <==> Published(w.fibers[id])) && (Published(g) ==> g.committed == w.fibers[id].committed)
    ensures
      var w2 := w.(fibers := w.fibers[id := g]);
      LogOk(w2.log, w2.fibers) && Indexed(w2) && Bounded(w2)
  {
    hide LogOk, Indexed, Bounded;
    LogKept(w.log, w.fibers, id, g);
    SpecsIndexed(w, w.(fibers := w.fibers[id := g]));
  }

  lemma DivertStep(w: World, cx: Cascade, id: FiberId)
    requires Sound(w, cx) && id in w.fibers
    requires w.fibers[id].state == Loading
    requires w.fibers[id].spec.RequiredOnly() ==> w.fibers[id].reactivate == -1
    ensures
      var w2 := w.(fibers := w.fibers[id := Diverted(w.fibers[id])]);
      && Sound(w2, cx)
      && |Moving(w2.fibers)| == |Moving(w.fibers)|
      && Withdrawing(w2.fibers) == Withdrawing(w.fibers)
  {
    var g := Diverted(w.fibers[id]);
    hide Inv, Withdraws, Satisfiable, LogOk, Shape, Moving, Withdrawing, Indexed, Bounded;
    ShapeOf(w, cx, id);
    WithdrawingAt(w.fibers, id, g);
    Divert(w.fibers, w.slots, w.stamps, cx, id);
    MovingSame(w.fibers, id, g);
    RecordsAt(w, id, g);
  }

  // ---------------------------------------------------------------------------------------------
  // Unloading an active fiber

  /** The consumers of a fiber that may be unloaded are exactly the fibers relying on it. */
  lemma ConsumersRely(w: World, cx: Cascade, id: FiberId, scope: set<FiberId>)
    requires Sound(w, cx) && id in w.fibers && Published(w.fibers[id]) && Unloadable(w, id, cx, scope)
    ensures forall c | c in w.fibers[id].consumers :: c in w.fibers && Relies(w.fibers[c], id) && c in scope
    ensures w.fibers[id].spec.provide == {} ==> w.fibers[id].consumers == {}
    ensures w.fibers[id].spec.provide != {} ==> w.fibers[id].consumers == Reliers(w.fibers, id)
  {
    var fs := w.fibers;
    assert fs[id].consumers == Reliers(fs, id) + Owed(cx.pending, id);
    forall c | c in fs && Relies(fs[c], id) ensures fs[id].spec.provide != {} {
      RelianceProvides(fs, w.slots, c, id);
    }
  }

  lemma FlipStep(w: World, cx: Cascade, id: FiberId)
    requires Sound(w, cx) && id in w.fibers
    requires w.fibers[id].state == Active
    requires w.fibers[id].spec.RequiredOnly() ==> w.fibers[id].reactivate == -1 || !Satisfiable(w.slots, id, w.fibers[id].spec)
    requires w.fibers[id].reactivate == 0 ==> !Satisfiable(w.slots, id, w.fibers[id].spec)
    ensures
      var w2 := w.(fibers := w.fibers[id := Flipped(w.fibers[id])], slots := RetireSlots(w.slots, id));
      && Sound(w2, cx.(dirty := cx.dirty - {id})) && Leads(w, w2)
      && |Moving(w2.fibers)| == |Moving(w.fibers)| + 1
      && Actives(w2.fibers) == Actives(w.fibers) - {id} && id in Actives(w.fibers)
      && Withdrawing(w2.fibers) == Withdrawing(w.fibers) + {id}
  {
    hide Inv, Withdraws, Satisfiable, LogOk, Shape, Moving, Withdrawing, Actives, Indexed, Bounded, RetireSlots;
    var g := Flipped(w.fibers[id]);
    ShapeOf(w, cx, id);
    Flip(w.fibers, w.slots, w.stamps, cx, id);
    FlipSets(w.fibers, id);
    MovingMore(w.fibers, id, g);
    LogKept(w.log, w.fibers, id, g);
    SpecsIndexed(w, w.(fibers := w.fibers[id := g], slots := RetireSlots(w.slots, id)));
  }

  /** Where a cascade may have taken a consumer before the unloading loop meets it. */
  lemma ConsumerMoved(fs1: Pool, bs1: Slots, fs: Pool, bs: Slots, c: FiberId)
    requires Withdraws(fs1, bs1, fs, bs) && Shapes(fs)
    requires c in fs1 && Published(fs1[c])
    ensures c in fs
    ensures fs[c].state == Loading ==> !fs[c].spec.RequiredOnly()
    ensures fs[c].state == Active ==> Published(fs[c]) && fs[c].committed == fs1[c].committed
    ensures fs[c].activation == Unloading ==> Published(fs1[c])
  {
    assert Moves(c, fs1[c], fs[c], bs1, bs);
    assert Shape(c, fs[c]);
  }

  /** Each consumer met by the unloading loop may itself be unloaded. */
  lemma NextConsumer(w1: World, w: World, cx: Cascade, id: FiberId, c: FiberId)
    requires Sound(w1, cx) && Sound(w, cx) && Leads(w1, w) && Calm(w1, w)
    requires id in w1.fibers && w1.fibers[id].activation == Unloading
    requires forall u | u in Withdrawing(w1.fibers) && u != id :: u in w1.stamps && w1.stamps[u] < w1.stamps[id]
    requires id in w1.stamps
    requires c in w1.fibers && Relies(w1.fibers[c], id)
    ensures c in w.fibers && w.fibers[c].activation != Unloading
    ensures w.fibers[c].state == Loading ==> !w.fibers[c].spec.RequiredOnly()
    ensures w.fibers[c].state == Active ==>
      Relies(w.fibers[c], id) && id in w.fibers && w.fibers[id].activation != Active && c in w.stamps && w.stamps[id] < w.stamps[c]
  {
    ConsumerMoved(w1.fibers, w1.slots, w.fibers, w.slots, c);
    StampsDescend(w1, cx, c, id);
    hide Sound, Shapes, Satisfiable;
    assert Moves(id, w1.fibers[id], w.fibers[id], w1.slots, w.slots);
    assert c in Withdrawing(w.fibers) ==> c in Withdrawing(w1.fibers);
  }

  lemma StampsDescend(w: World, cx: Cascade, c: FiberId, p: FiberId)
    requires Sound(w, cx) && c in w.fibers && Relies(w.fibers[c], p)
    ensures c in w.stamps && p in w.stamps && w.stamps[p] < w.stamps[c] && c != p
  {}

  lemma NextUnloadable(w1: World, w: World, cx: Cascade, id: FiberId, c: FiberId, scope: set<FiberId>)
    requires Sound(w, cx) && Leads(w1, w) && Calm(w1, w)
    requires id in w1.fibers && id in scope && Closed(w1.fibers, scope)
    requires cx.pending == {} && id in w1.stamps
    requires forall u | u in Withdrawing(w1.fibers) && u != id :: u in w1.stamps && w1.stamps[u] < w1.stamps[id]
    requires c in w1.fibers && Relies(w1.fibers[c], id)
    requires c in w.fibers && Relies(w.fibers[c], id) && id in w.fibers && w.fibers[id].activation != Active
    requires c in w.stamps && w.stamps[id] < w.stamps[c]
    ensures Unloadable(w, c, cx, scope)
  {
    ClosedKept(w1.fibers, w1.slots, w.fibers, w.slots, scope);
    if w.fibers[c].spec.RequiredOnly() {
      LostProvider(w.fibers, w.slots, c, id);
    }
    forall u | u in Withdrawing(w.fibers) ensures u in w.stamps && w.stamps[u] < w.stamps[c] {
      assert u in Withdrawing(w1.fibers);
    }
  }

  /** Once every consumer stopped being published, the guard counter is zero. */
  lemma Released(w1: World, w: World, cx: Cascade, id: FiberId)
    requires Sound(w1, cx) && Sound(w, cx) && Leads(w1, w)
    requires id in w1.fibers && w1.fibers[id].activation == Unloading
    requires w1.fibers[id].spec.provide != {} ==> cx.pending == {} && w1.fibers[id].consumers == Reliers(w1.fibers, id)
    requires w1.fibers[id].spec.provide == {} ==> w1.fibers[id].consumers == {} && w == w1
    requires forall c | c in w1.fibers[id].consumers :: c in w.fibers && !Published(w.fibers[c])
    ensures id in w.fibers && w.fibers[id].remaining == 0
    ensures w.fibers[id].state == Unloading ==> w.fibers[id].activation == Unloading
    ensures !Published(w.fibers[id]) ==> w.fibers[id].state == Inactive
    ensures w.fibers[id].activation != Loading && w.fibers[id].state != Active
  {
    var fs1, fs := w1.fibers, w.fibers;
    assert Moves(id, fs1[id], fs[id], w1.slots, w.slots);
    assert Shape(id, fs[id]) && Shape(id, fs1[id]);
    if fs[id].activation == Unloading && fs[id].spec.provide != {} {
      forall c | c in fs ensures !Relies(fs[c], id) {
        assert Moves(c, fs1[c], fs[c], w1.slots, w.slots);
        assert c in Reliers(fs1, id) <==> Relies(fs1[c], id);
      }
      assert Reliers(fs, id) == {};
      assert fs[id].consumers == Reliers(fs, id) + Owed(cx.pending, id);
      assert fs[id].consumers == {};
    }
    if fs1[id].spec.provide != {} {
      assert Admissible(fs1[id].spec);
    }
  }

  // ---------------------------------------------------------------------------------------------
  // Finishing a withdrawing fiber

  lemma TearDownStep(w: World, cx: Cascade, id: FiberId)
    requires Sound(w, cx) && id in w.fibers
    requires w.fibers[id].activation == Unloading && w.fibers[id].remaining == 0
    ensures
      var w2 := w.(fibers := w.fibers[id := Emptied(w.fibers[id])], slots := Unbind(w.slots, id), log := w.log + [TornDown(id)]);
      && Sound(w2, TornCascade(cx, id, w.fibers[id]))
      && Leads(w, w2) && Calm(w, w2) && Spared(w, w2, {})
      && |Moving(w2.fibers)| == |Moving(w.fibers)| - 1
      && Actives(w2.fibers) == Actives(w.fibers)
      && Withdrawing(w2.fibers) == Withdrawing(w.fibers) - {id} && id in Withdrawing(w.fibers)
  {
    hide Inv, Withdraws, Satisfiable, LogOk, Shape, Moving, Withdrawing, Actives, Indexed, Bounded, Unbind, EdgesOf;
    var g := Emptied(w.fibers[id]);
    ShapeOf(w, cx, id);
    TearDown(w.fibers, w.slots, w.stamps, cx, id);
    TearDownSets(w.fibers, id);
    MovingLess(w.fibers, id, g);
    LogTearDown(w.log, w.fibers, id, g);
    SpecsIndexed(w, w.(fibers := w.fibers[id := g], slots := Unbind(w.slots, id), log := w.log + [TornDown(id)]));
  }

  lemma FinishingFacts(w: World, cx: Cascade, id: FiberId)
    requires Sound(w, cx) && id in w.fibers
    requires w.fibers[id].activation == Unloading
    ensures forall e | e in cx.pending :: e.0 != id
    ensures forall k1, k2 | k1 in w.fibers[id].committed && k2 in w.fibers[id].committed && k1 != k2 ::
      w.fibers[id].committed[k1] != w.fibers[id].committed[k2]
  {
    assert Shape(id, w.fibers[id]);
  }

  /** The edges a finishing fiber still owes for the keys in `todo`. */
  function OwedFor(id: FiberId, view: map<ServiceId, FiberId>, todo: set<ServiceId>): set<(FiberId, FiberId)> {
    set k | k in todo && k in view :: (id, view[k])
  }

  lemma OwedForAll(id: FiberId, view: map<ServiceId, FiberId>)
    ensures OwedFor(id, view, view.Keys) == EdgesOf(id, view)
  {
    forall e | e in EdgesOf(id, view) ensures e in OwedFor(id, view, view.Keys) {
      var k :| k in view && view[k] == e.1;
    }
  }

  lemma OwedForNext(pending: set<(FiberId, FiberId)>, id: FiberId, view: map<ServiceId, FiberId>, todo: set<ServiceId>, k: ServiceId)
    requires k in todo && todo <= view.Keys
    requires forall e | e in pending :: e.0 != id
    requires forall k1, k2 | k1 in view && k2 in view && k1 != k2 :: view[k1] != view[k2]
    ensures (id, view[k]) in pending + OwedFor(id, view, todo)
    ensures pending + OwedFor(id, view, todo) - {(id, view[k])} == pending + OwedFor(id, view, todo - {k})
  {
    var l, r := pending + OwedFor(id, view, todo) - {(id, view[k])}, pending + OwedFor(id, view, todo - {k});
    forall e | e in l ensures e in r {
      if e !in pending {
        var k1 :| k1 in todo && k1 in view && (id, view[k1]) == e;
        assert k1 in todo - {k};
      }
    }
    forall e | e in r ensures e in l {
      if e !in pending {
        var k1 :| k1 in todo - {k} && k1 in view && (id, view[k1]) == e;
      }
    }
  }

  lemma DropStep(w: World, cx: Cascade, c: FiberId, p: FiberId)
    requires Sound(w, cx) && (c, p) in cx.pending
    ensures p in w.fibers && c in w.fibers[p].consumers
    ensures w.fibers[p].remaining > 0 ==> w.fibers[p].state == Unloading
    ensures w.fibers[p].state == Unloading ==> w.fibers[p].activation == Unloading
    ensures
      var w2 := w.(fibers := w.fibers[p := Dropped(w.fibers[p], c)]);
      && Sound(w2, cx.(pending := cx.pending - {(c, p)}))
      && Leads(w, w2) && Calm(w, w2) && Spared(w, w2, {})
      && |Moving(w2.fibers)| == |Moving(w.fibers)|
  {
    hide Inv, Withdraws, Satisfiable, LogOk, Shape, Moving, Withdrawing, Actives, Indexed, Bounded;
    DropEdge(w.fibers, w.slots, w.stamps, cx, c, p);
    var g := Dropped(w.fibers[p], c);
    ShapeOf(w, cx, p);
    OwedPublished(w, cx, c, p);
    WithdrawingAt(w.fibers, p, g);
    MovingSame(w.fibers, p, g);
    LogKept(w.log, w.fibers, p, g);
    SpecsIndexed(w, w.(fibers := w.fibers[p := g]));
  }

  lemma OwedPublished(w: World, cx: Cascade, c: FiberId, p: FiberId)
    requires Sound(w, cx) && (c, p) in cx.pending
    ensures p in w.fibers && Published(w.fibers[p])
  {}

  /** A fiber that is no longer published, and is owed nothing, has no consumers left. */
  lemma NoConsumersLeft(w: World, cx: Cascade, id: FiberId)
    requires Sound(w, cx) && id in w.fibers && !Published(w.fibers[id])
    ensures w.fibers[id].consumers == {}
  {
    var fs := w.fibers;
    assert fs[id].consumers == Reliers(fs, id) + Owed(cx.pending, id);
    forall c | c in fs ensures !Relies(fs[c], id) {
      if Relies(fs[c], id) {
        RelianceProvides(fs, w.slots, c, id);
      }
    }
    assert Reliers(fs, id) == {} && Owed(cx.pending, id) == {};
  }

  /** No published fiber that needs all its keys declares a key nobody is bound to. */
  ghost predicate Unheld(w: World, k: ServiceId) {
    forall c | c in w.fibers && Published(w.fibers[c]) && w.fibers[c].spec.RequiredOnly() :: k !in w.fibers[c].spec.Keys()
  }

  lemma UnboundIsUnheld(w: World, cx: Cascade, k: ServiceId)
    requires Sound(w, cx) && k !in w.slots
    ensures Unheld(w, k)
  {
    forall c | c in w.fibers && Published(w.fibers[c]) && w.fibers[c].spec.RequiredOnly()
      ensures k !in w.fibers[c].spec.Keys()
    {
      if k in w.fibers[c].spec.Keys() {
        UnboundUnheld(w.fibers, w.slots, c, k);
      }
    }
  }

  lemma UnheldKept(v: World, w: World, k: ServiceId)
    requires Unheld(v, k) && Leads(v, w)
    ensures Unheld(w, k)
  {
    forall c | c in w.fibers && Published(w.fibers[c]) && w.fibers[c].spec.RequiredOnly()
      ensures k !in w.fibers[c].spec.Keys()
    {
      assert Moves(c, v.fibers[c], w.fibers[c], v.slots, w.slots);
    }
  }

  lemma SlotGone(v: World, w: World, k: ServiceId)
    requires Leads(v, w) && k !in v.slots
    ensures k !in w.slots
  {}

  /** The members of a pool at the end of a cascade. */
  lemma SameMembers(v: World, w: World)
    requires Leads(v, w)
    ensures w.fibers.Keys == v.fibers.Keys && w.index == v.index && w.stamps == v.stamps && w.nextId == v.nextId && w.clock == v.clock
    ensures forall x | x in v.fibers :: w.fibers[x].spec == v.fibers[x].spec && (w.fibers[x].reactivate == -1 <==> v.fibers[x].reactivate == -1)
    ensures forall x | x in v.fibers && !Published(v.fibers[x]) :: !Published(w.fibers[x])
  {
    forall x | x in v.fibers
      ensures w.fibers[x].spec == v.fibers[x].spec && (w.fibers[x].reactivate == -1 <==> v.fibers[x].reactivate == -1)
      ensures !Published(v.fibers[x]) ==> !Published(w.fibers[x])
    {
      assert Moves(x, v.fibers[x], w.fibers[x], v.slots, w.slots);
    }
  }

  // ---------------------------------------------------------------------------------------------
  // Glue for the engine's methods

  function Raise(f: Fiber, flag: bool): Fiber {
    if f.reactivate >= 0 then f.(reactivate := if flag || f.reactivate == 1 then 1 else 0) else f
  }

  /** A fiber that misses nothing owes no evaluation. */
  lemma EvaluatedAway(w: World, cx: Cascade, id: FiberId)
    requires Sound(w, cx) && id in w.fibers && Minded(w.slots, id, w.fibers[id])
    ensures Sound(w, cx.(dirty := cx.dirty - {id}))
  {
    hide Edges, Hold, Counters, Stamped, SlotsOk, Doomed, Disciplined, LogOk, Indexed, Bounded, Shapes, Satisfiable, ViewFull;
  }

  lemma TargetMinded(bs: Slots, id: FiberId, f: Fiber)
    requires f.state == Active && AtTarget(bs, id, f)
    ensures Minded(bs, id, f)
  {}

  /** A retired fiber does not re-enter. */
  lemma NotAgain(w: World, cx: Cascade, id: FiberId)
    requires Sound(w, cx) && (id in cx.again ==> id in w.fibers && w.fibers[id].reactivate <= 0)
    ensures Sound(w, cx.(again := cx.again - {id}))
  {
    hide Edges, Hold, Counters, Stamped, SlotsOk, Waiting, Doomed, Disciplined, LogOk, Indexed, Bounded, Satisfiable, ViewFull;
    if id in cx.again {
      assert Shape(id, w.fibers[id]);
    }
  }

  /** Nobody published is to re-enter. */
  lemma PublishedOnce(w: World, cx: Cascade, id: FiberId)
    requires Sound(w, cx) && id in w.fibers && Published(w.fibers[id])
    ensures id !in cx.again
  {}

  /** The re-entry that was owed is the evaluation that is owed now. */
  lemma ReenterStep(w: World, cx: Cascade, id: FiberId)
    requires Sound(w, cx) && id in w.fibers
    ensures Sound(w, cx.(again := cx.again - {id}, dirty := cx.dirty + {id}))
  {
    hide Edges, Hold, Counters, Stamped, SlotsOk, Doomed, Disciplined, LogOk, Indexed, Bounded, Shapes, Satisfiable, Minded;
  }

  /** What is not watched need not miss nothing. */
  lemma Unwatch(w: World, cx: Cascade, fewer: set<FiberId>)
    requires Sound(w, cx) && fewer <= cx.watched
    ensures Sound(w, cx.(watched := fewer))
  {}

  /** A fiber with optional dependencies provides nothing, so it can always be unloaded alone. */
  lemma LeafUnloadable(w: World, cx: Cascade, id: FiberId)
    requires Sound(w, cx) && id in w.fibers && !w.fibers[id].spec.RequiredOnly()
    ensures Unloadable(w, id, cx, {id})
  {
    assert Admissible(w.fibers[id].spec);
    forall c | c in w.fibers ensures !Relies(w.fibers[c], id) {
      if Relies(w.fibers[c], id) {
        RelianceProvides(w.fibers, w.slots, c, id);
      }
    }
  }

  lemma SparedLeaf(v: World, w: World, id: FiberId)
    requires Spared(v, w, {id}) && id in v.fibers && !v.fibers[id].spec.RequiredOnly()
    ensures Spared(v, w, {})
  {}

  lemma SparedWiden(v: World, w: World, scope: set<FiberId>)
    requires Spared(v, w, {})
    ensures Spared(v, w, scope)
  {}

  lemma RaiseStep(w: World, cx: Cascade, id: FiberId, flag: bool, scope: set<FiberId>)
    requires Sound(w, cx) && id in w.fibers
    ensures
      var w2 := w.(fibers := w.fibers[id := Raise(w.fibers[id], flag)]);
      && Sound(w2, cx)
      && Leads(w, w2) && Calm(w, w2) && Spared(w, w2, {})
      && |Moving(w2.fibers)| == |Moving(w.fibers)|
      && Actives(w2.fibers) == Actives(w.fibers) && Withdrawing(w2.fibers) == Withdrawing(w.fibers)
      && (Unloadable(w, id, cx, scope) ==> Unloadable(w2, id, cx, scope))
      && (flag ==> w2.fibers[id].reactivate != 0)
  {
    hide Inv, LogOk, Moving, Indexed, Bounded, Satisfiable, Leads, Calm, Spared, Shape;
    ShapeOf(w, cx, id);
    ReflagShape(id, w.fibers[id], flag);
    TouchStep(w, cx, id, Raise(w.fibers[id], flag));
    forall c | c in w.fibers ensures forall p :: Relies(w.fibers[id := Raise(w.fibers[id], flag)][c], p) <==> Relies(w.fibers[c], p) {}
  }

  lemma ReflagShape(id: FiberId, f: Fiber, flag: bool)
    requires Shape(id, f)
    ensures Shape(id, Raise(f, flag))
  {}

  /** The unloading loop may re-flag or divert a consumer that is no longer published. */
  lemma ConsumerTouched(w1: World, w: World, cx: Cascade, c: FiberId, g: Fiber, scope: set<FiberId>)
    requires Leads(w1, w) && Calm(w1, w) && Spared(w1, w, scope)
    requires c in w1.fibers && Published(w1.fibers[c])
    requires c in w.fibers && !Published(w.fibers[c]) && (w.fibers[c].state == Loading ==> !w.fibers[c].spec.RequiredOnly())
    requires g == Raise(w.fibers[c], true) || (w.fibers[c].state == Loading && g == Diverted(Raise(w.fibers[c], true)))
    ensures
      var w2 := w.(fibers := w.fibers[c := g]);
      && Leads(w1, w2) && Calm(w1, w2) && Spared(w1, w2, scope) && !Published(g)
  {
    hide Withdraws, Component.RequiredOnly;
    var w2 := w.(fibers := w.fibers[c := g]);
    CameDown(w1, w, c);
    WithdrawsTouched(w1.fibers, w1.slots, w.fibers, w.slots, c, g);
    forall x | x in Withdrawing(w2.fibers) ensures x in Withdrawing(w.fibers) {}
  }

  lemma CameDown(w1: World, w: World, c: FiberId)
    requires Leads(w1, w) && c in w1.fibers && c in w.fibers && Published(w1.fibers[c]) && !Published(w.fibers[c])
    ensures w.fibers[c].spec == w1.fibers[c].spec
    ensures w1.fibers[c].spec.RequiredOnly() ==> w.fibers[c].state == Inactive
  {
    hide Satisfiable, Shrinks;
    assert Moves(c, w1.fibers[c], w.fibers[c], w1.slots, w.slots);
  }

  /** The whole unloading of an active fiber, its flip included. */
  lemma CloseUnload(w0: World, cx0: Cascade, w1: World, w2: World, cx: Cascade, id: FiberId, scope: set<FiberId>)
    requires Sound(w0, cx0) && Sound(w1, cx) && Sound(w2, cx)
    requires Leads(w0, w1) && Leads(w1, w2) && Calm(w1, w2) && Spared(w1, w2, scope)
    requires id in w0.fibers && id in scope
    requires w1.fibers == w0.fibers[id := Flipped(w0.fibers[id])]
    requires id in w2.fibers && !Published(w2.fibers[id])
    ensures Leads(w0, w2) && Calm(w0, w2) && Spared(w0, w2, scope)
  {
    hide Sound, Withdraws;
    LeadsTrans(w0, cx0, w1, cx, w2, cx);
    forall x | x in Withdrawing(w2.fibers) ensures x in Withdrawing(w0.fibers) {
      assert x in Withdrawing(w1.fibers);
    }
  }

  lemma StopStep(w: World, cx: Cascade, id: FiberId)
    requires Sound(w, cx) && id in w.fibers && w.fibers[id].activation != Loading
    ensures
      var w2 := w.(fibers := w.fibers[id := w.fibers[id].(stopRequested := true)]);
      && Sound(w2, cx)
      && Leads(w, w2) && Calm(w, w2) && Spared(w, w2, {})
      && |Moving(w2.fibers)| == |Moving(w.fibers)|
      && Actives(w2.fibers) == Actives(w.fibers)
  {
    hide Inv, LogOk, Moving, Indexed, Bounded, Leads, Calm, Spared;
    ShapeOf(w, cx, id);
    TouchStep(w, cx, id, w.fibers[id].(stopRequested := true));
  }

  lemma ClearFlagStep(w: World, cx: Cascade, id: FiberId)
    requires Sound(w, cx) && id in w.fibers && w.fibers[id].reactivate >= 0 && id !in cx.again && !Published(w.fibers[id])
    ensures
      var w2 := w.(fibers := w.fibers[id := w.fibers[id].(reactivate := 0)]);
      && Sound(w2, cx)
      && Leads(w, w2) && Calm(w, w2) && Spared(w, w2, {})
      && |Moving(w2.fibers)| == |Moving(w.fibers)|
  {
    hide Inv, LogOk, Moving, Indexed, Bounded, Leads, Calm, Spared;
    ShapeOf(w, cx, id);
    TouchStep(w, cx, id, w.fibers[id].(reactivate := 0));
  }

  lemma UnloadableFacts(w: World, id: FiberId, cx: Cascade, scope: set<FiberId>)
    requires Sound(w, cx) && id in w.fibers && Unloadable(w, id, cx, scope)
    ensures id in scope && Closed(w.fibers, scope)
    ensures w.fibers[id].spec.RequiredOnly() ==>
      w.fibers[id].reactivate == -1 || !Satisfiable(w.slots, id, w.fibers[id].spec)
    ensures w.fibers[id].spec.provide != {} ==>
      cx.pending == {} && id in w.stamps
      && forall u | u in Withdrawing(w.fibers) :: u in w.stamps && w.stamps[u] < w.stamps[id]
    ensures forall k | k in w.slots && w.slots[k].provider == id :: k in w.fibers[id].spec.provide
  {}

  lemma ReliersAreUp(w: World, cx: Cascade, id: FiberId)
    requires Sound(w, cx)
    ensures forall c | c in w.fibers && Relies(w.fibers[c], id) :: w.fibers[c].state != Inactive && c != id
  {
    forall c | c in w.fibers && Relies(w.fibers[c], id) ensures w.fibers[c].state != Inactive && c != id {
      assert Shape(c, w.fibers[c]);
    }
  }

  lemma ClosedAfterFlip(w: World, id: FiberId, scope: set<FiberId>)
    requires id in w.fibers && w.fibers[id].activation == Active && Closed(w.fibers, scope)
    ensures Closed(w.fibers[id := Flipped(w.fibers[id])], scope)
  {
    forall c, p | c in w.fibers && p in scope && Relies(w.fibers[id := Flipped(w.fibers[id])][c], p) ensures c in scope {
      assert Relies(w.fibers[c], p);
    }
  }

  /** A torn down fiber's keys are free: nobody else may provide them. */
  lemma ProvisionsGone(w: World, cx: Cascade, id: FiberId)
    requires Sound(w, cx) && id in w.fibers
    ensures forall k | k in w.fibers[id].spec.provide :: k !in Unbind(w.slots, id)
  {
    forall k | k in w.slots ensures k in w.fibers[id].spec.provide ==> w.slots[k].provider == id {}
  }

  /** Whoever is notified about a key no needy published fiber declares can be evaluated. */
  lemma Notifiable(w: World, cx: Cascade, k: ServiceId, c: FiberId)
    requires Sound(w, cx) && Unheld(w, k)
    requires k in w.index && c in w.index[k]
    ensures c in w.fibers
    ensures w.fibers[c].state == Active ==> !w.fibers[c].spec.RequiredOnly()
  {
    assert Shape(c, w.fibers[c]);
  }

  lemma RelierPublished(w: World, c: FiberId, p: FiberId)
    requires c in w.fibers && Relies(w.fibers[c], p)
    ensures Published(w.fibers[c])
  {}

  /** Unloading one consumer publishes nobody. */
  lemma StillUnpublished(w: World, w2: World, c: FiberId)
    requires c in w2.fibers
    requires Leads(w, w2) || (c in w.fibers && c in w2.fibers && w2.fibers == w.fibers[c := w2.fibers[c]])
    ensures forall x | x in w.fibers && x != c && !Published(w.fibers[x]) :: x in w2.fibers && !Published(w2.fibers[x])
  {
    if Leads(w, w2) {
      SameMembers(w, w2);
    }
  }

  lemma OwedForNone(pending: set<(FiberId, FiberId)>, id: FiberId, view: map<ServiceId, FiberId>)
    ensures pending + OwedFor(id, view, {}) == pending
  {}

  lemma FlippedReliers(fs: Pool, id: FiberId)
    requires id in fs && fs[id].activation == Active
    ensures forall c | c in fs && Relies(fs[c], id) :: Relies(fs[id := Flipped(fs[id])][c], id)
    ensures Reliers(fs[id := Flipped(fs[id])], id) == Reliers(fs, id)
  {}
}
