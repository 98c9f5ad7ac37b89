/**
  What a handler of the engine does to the invariant where it is not a cascade: publishing, landing
  a failed apply, provisions, promotion, mounting and erasing.
 */
module Handlers {
  import opened Basics
  import opened Fibers
  import opened FiberSteps
  import opened Cascades

  // ---------------------------------------------------------------------------------------------
  // Publishing

  /** The pool after `id` published: it is active and its providers list it. */
  function PublishedPool(fs: Pool, id: FiberId): Pool
    requires id in fs
  {
    map x | x in fs ::
      if x == id then fs[x].(state := Active, activation := Active)
      else if x in fs[id].committed.Values then fs[x].(consumers := fs[x].consumers + {id})
      else fs[x]
  }

  predicate NamedUnder(f: Fiber, keys: set<ServiceId>, x: FiberId) {
    exists k :: k in keys && k in f.committed && f.committed[k] == x
  }

  /** The pool while the published fiber enlists with the providers of some of its keys. */
  function Enlisted(fs: Pool, id: FiberId, keys: set<ServiceId>): Pool
    requires id in fs
  {
    map x | x in fs ::
      if x == id then fs[x].(state := Active, activation := Active)
      else if NamedUnder(fs[id], keys, x) then fs[x].(consumers := fs[x].consumers + {id})
      else fs[x]
  }

  lemma EnlistedNone(fs: Pool, id: FiberId)
    requires id in fs
    ensures fs[id := fs[id].(state := Active, activation := Active)] == Enlisted(fs, id, fs[id].committed.Keys - fs[id].committed.Keys)
  {}

  lemma EnlistedNext(fs: Pool, id: FiberId, keys: set<ServiceId>, k: ServiceId)
    requires id in fs && k in fs[id].committed && fs[id].committed[k] != id
    ensures var p, gs := fs[id].committed[k], Enlisted(fs, id, keys);
      Enlisted(fs, id, keys + {k}) == if p in gs then gs[p := gs[p].(consumers := gs[p].consumers + {id})] else gs
  {
    var p, gs, hs := fs[id].committed[k], Enlisted(fs, id, keys), Enlisted(fs, id, keys + {k});
    forall x ensures NamedUnder(fs[id], keys + {k}, x) <==> NamedUnder(fs[id], keys, x) || x == p {
      assert x == p ==> k in keys + {k} && fs[id].committed[k] == x;
    }
  }

  lemma EnlistedAll(fs: Pool, id: FiberId)
    requires id in fs
    ensures Enlisted(fs, id, fs[id].committed.Keys) == PublishedPool(fs, id)
  {
    forall x | x in fs ensures NamedUnder(fs[id], fs[id].committed.Keys, x) <==> x in fs[id].committed.Values {}
  }

  function ServeSlots(bs: Slots, id: FiberId): Slots {
    map k | k in bs :: if bs[k].provider == id then bs[k].(state := Serving) else bs[k]
  }

  /** Fibers declaring a key that `id` provides. */
  function Woken(index: map<ServiceId, set<FiberId>>, keys: set<ServiceId>): set<FiberId> {
    set k, x | k in keys && k in index && x in index[k] :: x
  }

  lemma LiveProviders(fs: Pool, bs: Slots, id: FiberId)
    requires id in fs && SlotsOk(fs, bs) && Shape(id, fs[id]) && ViewLive(bs, fs[id])
    ensures forall p | p in fs[id].committed.Values :: p in fs && p != id && fs[p].activation == Active
  {
    forall p | p in fs[id].committed.Values ensures p in fs && p != id && fs[p].activation == Active {
      var k :| k in fs[id].committed && fs[id].committed[k] == p;
      assert k in bs && bs[k].provider == p;
    }
  }

  lemma PublishEdges(fs: Pool, bs: Slots, id: FiberId)
    requires id in fs && Edges(fs, {}) && !Published(fs[id]) && id !in fs[id].committed.Values
    ensures Edges(PublishedPool(fs, id), {})
  {
    var fs2 := PublishedPool(fs, id);
    forall p | p in fs2 ensures fs2[p].consumers == Reliers(fs2, p) + Owed({}, p) {
      assert fs[p].consumers == Reliers(fs, p) + Owed({}, p);
      assert Reliers(fs2, p) == Reliers(fs, p) + if p in fs[id].committed.Values then {id} else {};
    }
  }

  lemma PublishHold(fs: Pool, bs: Slots, id: FiberId)
    requires id in fs && Hold(fs, bs) && ViewLive(bs, fs[id]) && !Published(fs[id])
    requires forall p | p in fs[id].committed.Values :: p in fs && p != id && fs[p].activation == Active
    ensures Hold(PublishedPool(fs, id), ServeSlots(bs, id))
  {
    var fs2, bs2 := PublishedPool(fs, id), ServeSlots(bs, id);
    forall c, k | c in fs2 && Published(fs2[c]) && k in fs2[c].committed
      ensures HeldKey(fs2, bs2, fs2[c].committed[k], k)
    {
      if c == id {
        assert fs[id].committed[k] in fs[id].committed.Values;
      } else {
        assert HeldKey(fs, bs, fs[c].committed[k], k);
      }
    }
  }

  lemma PublishStamped(fs: Pool, stamps: map<FiberId, nat>, clock: nat, id: FiberId)
    requires id in fs && Stamped(fs, stamps) && (forall x | x in stamps :: stamps[x] < clock)
    requires !Published(fs[id])
    requires forall p | p in fs[id].committed.Values :: p in fs && p != id && fs[p].activation == Active
    requires forall c | c in fs :: !Relies(fs[c], id)
    ensures Stamped(PublishedPool(fs, id), stamps[id := clock])
  {
    var fs2 := PublishedPool(fs, id);
    var stamps2 := stamps[id := clock];
    forall c, p | c in fs2 && Relies(fs2[c], p) ensures p in stamps2 && stamps2[p] < stamps2[c] {
      if c != id {
        assert Relies(fs[c], p);
      }
    }
  }

  lemma PublishShapes(fs: Pool, id: FiberId)
    requires id in fs && Shapes(fs) && fs[id].state == Loading
    ensures Shapes(PublishedPool(fs, id))
  {
    forall x | x in fs ensures Shape(x, PublishedPool(fs, id)[x]) {
      assert Shape(x, fs[x]);
    }
  }

  lemma PublishSlots(fs: Pool, bs: Slots, id: FiberId)
    requires id in fs && SlotsOk(fs, bs) && fs[id].activation == Loading
    ensures SlotsOk(PublishedPool(fs, id), ServeSlots(bs, id))
  {}

  /** Who is not woken sees its required keys as before. */
  lemma PublishUnseen(w: World, id: FiberId, x: FiberId)
    requires id in w.fibers && SlotsOk(w.fibers, w.slots) && Indexed(w)
    requires x in w.fibers && x !in Woken(w.index, w.fibers[id].spec.provide)
    requires Satisfiable(ServeSlots(w.slots, id), x, w.fibers[x].spec)
    ensures Satisfiable(w.slots, x, w.fibers[x].spec)
  {
    var bs2 := ServeSlots(w.slots, id);
    var mine := w.fibers[id].spec.provide;
    assert forall k | k in mine && k in w.index && x in w.index[k] :: x in Woken(w.index, mine);
    forall k | k in w.fibers[x].spec.RequiredKeys() ensures Resolves(w.slots, x, k) {
      assert Resolves(bs2, x, k);
      assert k in w.fibers[x].spec.Keys();
      assert x in w.index[k];
    }
  }

  lemma PublishWaiting(w: World, id: FiberId)
    requires id in w.fibers && Waiting(w.fibers, w.slots, {}) && Doomed(w.fibers, w.slots) && SlotsOk(w.fibers, w.slots)
    requires Indexed(w) && w.fibers[id].state == Loading && Withdrawing(w.fibers) == {}
    ensures Waiting(PublishedPool(w.fibers, id), ServeSlots(w.slots, id), Woken(w.index, w.fibers[id].spec.provide))
    ensures Doomed(PublishedPool(w.fibers, id), ServeSlots(w.slots, id))
  {
    hide Satisfiable, SlotsOk, Indexed;
    var bs2, woken := ServeSlots(w.slots, id), Woken(w.index, w.fibers[id].spec.provide);
    forall x | x in w.fibers && x !in woken && Satisfiable(bs2, x, w.fibers[x].spec)
      ensures Satisfiable(w.slots, x, w.fibers[x].spec)
    {
      PublishUnseen(w, id, x);
    }
    forall x | x in w.fibers ensures w.fibers[x].activation != Unloading {
      assert x !in Withdrawing(w.fibers);
    }
  }

  /** Nor does it miss a key that was served before. */
  lemma PublishMinded(w: World, id: FiberId, x: FiberId)
    requires id in w.fibers && SlotsOk(w.fibers, w.slots) && Indexed(w)
    requires x in w.fibers && x !in Woken(w.index, w.fibers[id].spec.provide)
    ensures Minded(w.slots, x, w.fibers[x]) ==> Minded(ServeSlots(w.slots, id), x, w.fibers[x])
  {
    var bs2, mine := ServeSlots(w.slots, id), w.fibers[id].spec.provide;
    if Satisfiable(bs2, x, w.fibers[x].spec) {
      PublishUnseen(w, id, x);
    }
    assert forall k | k in mine && k in w.index && x in w.index[k] :: x in Woken(w.index, mine);
    forall k | k in w.fibers[x].spec.Keys() && Resolves(bs2, x, k) ensures Resolves(w.slots, x, k) {
      assert x in w.index[k];
    }
  }

  lemma PublishHeeded(w: World, id: FiberId, watched: set<FiberId>)
    requires id in w.fibers && Heeded(w.fibers, w.slots, Watching(watched)) && SlotsOk(w.fibers, w.slots)
    requires Indexed(w) && w.fibers[id].state == Loading && Withdrawing(w.fibers) == {} && id !in watched
    ensures Heeded(PublishedPool(w.fibers, id), ServeSlots(w.slots, id),
                   Watching(watched).(dirty := Woken(w.index, w.fibers[id].spec.provide)))
  {
    hide Minded, Satisfiable, SlotsOk, Indexed, ServeSlots;
    var fs2, bs2 := PublishedPool(w.fibers, id), ServeSlots(w.slots, id);
    forall x | x in watched && x in fs2 && x !in Woken(w.index, w.fibers[id].spec.provide) ensures Minded(bs2, x, fs2[x]) {
      PublishMinded(w, id, x);
      MindedSame(bs2, x, w.fibers[x], fs2[x]);
    }
    forall x | x in fs2 ensures fs2[x].activation != Unloading {
      assert x !in Withdrawing(w.fibers);
    }
  }

  lemma NobodyReliesYet(fs: Pool, bs: Slots, id: FiberId)
    requires id in fs && !Published(fs[id]) && Hold(fs, bs) && SlotsOk(fs, bs)
    ensures forall c | c in fs :: !Relies(fs[c], id)
  {
    forall c | c in fs ensures !Relies(fs[c], id) {
      if Relies(fs[c], id) {
        RelianceProvides(fs, bs, c, id);
      }
    }
  }

  lemma PublishInv(w: World, id: FiberId, watched: set<FiberId>)
    requires Sound(w, Watching(watched)) && id in w.fibers && Withdrawing(w.fibers) == {} && id !in watched
    requires w.fibers[id].state == Loading && ViewLive(w.slots, w.fibers[id])
    ensures Inv(PublishedPool(w.fibers, id), ServeSlots(w.slots, id), w.stamps[id := w.clock],
                Watching(watched).(dirty := Woken(w.index, w.fibers[id].spec.provide)))
  {
    hide Heeded;
    var fs, bs := w.fibers, w.slots;
    ShapeOf(w, Watching(watched), id);
    PublishHeeded(w, id, watched);
    LiveProviders(fs, bs, id);
    NobodyReliesYet(fs, bs, id);
    PublishEdges(fs, bs, id);
    PublishHold(fs, bs, id);
    PublishStamped(fs, w.stamps, w.clock, id);
    PublishShapes(fs, id);
    PublishSlots(fs, bs, id);
    PublishWaiting(w, id);
    PublishSteady(fs, id);
  }

  lemma PublishSteady(fs: Pool, id: FiberId)
    requires id in fs && Disciplined(fs) && Withdrawing(fs) == {}
    ensures Disciplined(PublishedPool(fs, id)) && Counters(PublishedPool(fs, id))
    ensures Withdrawing(PublishedPool(fs, id)) == {}
  {
    hide Disciplined;
    PublishDiscipline(fs, id);
    forall x | x in fs ensures fs[x].activation != Unloading {
      assert x !in Withdrawing(fs);
    }
  }

  lemma PublishDiscipline(fs: Pool, id: FiberId)
    requires id in fs && Disciplined(fs)
    ensures Disciplined(PublishedPool(fs, id))
  {
    hide Admissible;
  }

  lemma PublishLog(log: seq<Event>, fs: Pool, id: FiberId)
    requires LogOk(log, fs) && id in fs && id !in fs[id].committed.Values && !Published(fs[id])
    ensures LogOk(log + [PublishedView(id, fs[id].committed)], PublishedPool(fs, id))
  {
    hide Ordered, Held, PublishedPool, Views;
    HeldSnoc(log, PublishedView(id, fs[id].committed));
    PublishViews(fs, id);
    OrderedSnoc(log, PublishedView(id, fs[id].committed));
  }

  lemma PublishViews(fs: Pool, id: FiberId)
    requires id in fs && !Published(fs[id])
    ensures id !in Views(fs)
    ensures Views(PublishedPool(fs, id)) == Views(fs)[id := fs[id].committed]
  {}

  lemma PublishMoving(fs: Pool, id: FiberId)
    requires id in fs && InMotion(fs[id])
    ensures |Moving(PublishedPool(fs, id))| == |Moving(fs)| - 1
  {
    assert Moving(PublishedPool(fs, id)) == Moving(fs) - {id};
  }

  function AfterPublish(w: World, id: FiberId): World
    requires id in w.fibers
  {
    w.(fibers := PublishedPool(w.fibers, id), slots := ServeSlots(w.slots, id),
       stamps := w.stamps[id := w.clock], clock := w.clock + 1,
       log := w.log + [PublishedView(id, w.fibers[id].committed)])
  }

  lemma PublishStep(w: World, id: FiberId, watched: set<FiberId>)
    requires Sound(w, Watching(watched)) && id in w.fibers && Withdrawing(w.fibers) == {} && id !in watched
    requires w.fibers[id].state == Loading && ViewLive(w.slots, w.fibers[id])
    ensures Sound(AfterPublish(w, id), Watching(watched).(dirty := Woken(w.index, w.fibers[id].spec.provide)))
    ensures |Moving(AfterPublish(w, id).fibers)| == |Moving(w.fibers)| - 1
    ensures Withdrawing(AfterPublish(w, id).fibers) == {}
  {
    hide Inv, LogOk, Moving, Withdrawing, Satisfiable, Shape;
    ShapeOf(w, Watching(watched), id);
    Unwatch(w, Watching(watched), {});
    PublishInv(w, id, watched);
    SelfFree(w, id);
    PublishLog(w.log, w.fibers, id);
    PublishMoving(w.fibers, id);
    PublishQuiet(w, id);
  }

  lemma SelfFree(w: World, id: FiberId)
    requires Sound(w, REST) && id in w.fibers
    ensures id !in w.fibers[id].committed.Values
  {
    assert Shape(id, w.fibers[id]);
  }

  lemma PublishQuiet(w: World, id: FiberId)
    requires Sound(w, REST) && id in w.fibers && Withdrawing(w.fibers) == {}
    ensures Withdrawing(PublishedPool(w.fibers, id)) == {}
  {
    PublishSteady(w.fibers, id);
  }

  /** A fiber that needs a key of its own, or one already served, is not the one publishing it. */
  lemma ServedElsewhere(fs: Pool, bs: Slots, id: FiberId, c: FiberId, k: ServiceId)
    requires id in fs && c in fs && Disciplined(fs) && Hold(fs, bs) && SlotsOk(fs, bs) && Shape(c, fs[c])
    requires !Published(fs[id]) && k in fs[id].spec.provide
    requires Published(fs[c]) || (c == id && fs[id].state == Loading && ViewLive(bs, fs[id]))
    requires fs[c].spec.RequiredOnly()
    ensures k !in fs[c].spec.Keys()
  {
    forall j | j in fs[c].spec.Keys() ensures j !in fs[id].spec.provide {
      var p := fs[c].committed[j];
      assert p in fs[c].committed.Values;
      if c != id {
        assert HeldKey(fs, bs, p, j);
      }
      assert bs[j].provider == p && j in fs[p].spec.provide && p != id;
    }
  }

  /** No needy published fiber declares a key the publishing fiber provides. */
  lemma PublishUnheld(w: World, id: FiberId, k: ServiceId)
    requires Sound(w, REST) && id in w.fibers && w.fibers[id].state == Loading && ViewLive(w.slots, w.fibers[id])
    requires k in w.fibers[id].spec.provide
    ensures Unheld(AfterPublish(w, id), k)
  {
    hide ViewLive, Disciplined, Hold, SlotsOk, Edges, Stamped, Counters, Doomed, Heeded, Waiting, LogOk, Indexed, ServeSlots;
    ShapeOf(w, REST, id);
    forall c | c in w.fibers && (Published(w.fibers[c]) || c == id) && w.fibers[c].spec.RequiredOnly()
      ensures k !in w.fibers[c].spec.Keys()
    {
      ServedElsewhere(w.fibers, w.slots, id, c, k);
    }
  }

  // ---------------------------------------------------------------------------------------------
  // Landing an apply that does not publish

  function Landed(f: Fiber, raised: bool): Fiber {
    f.(state := Inactive, activation := Inactive, committed := map[],
       error := if f.error != None then f.error else if raised then Some(Raised) else if f.stopRequested then Some(Cancelled) else None,
       applyFailed := if f.error == None && raised then true else f.applyFailed)
  }

  lemma LandInv(fs: Pool, bs: Slots, stamps: map<FiberId, nat>, id: FiberId, raised: bool, watched: set<FiberId>)
    requires Inv(fs, bs, stamps, Watching(watched)) && id in fs && fs[id].activation == Loading && id !in watched
    ensures Inv(fs[id := Landed(fs[id], raised)], Unbind(bs, id), stamps, Watching(watched).(dirty := {id}))
  {
    hide Heeded;
    var g, bs2 := Landed(fs[id], raised), Unbind(bs, id);
    assert Shape(id, fs[id]);
    LandSlots(fs, bs, id, g);
    DisciplinedAt(fs, id, g);
    ShapesAt(fs, id, g);
    EdgesAt(fs, {}, id, g);
    NobodyReliesYet(fs, bs, id);
    HoldAt(fs, bs, id, g, bs2);
    CountersAt(fs, id, g);
    StampedAt(fs, stamps, id, g);
    LandWaiting(fs, bs, id, g);
    LandHeeded(fs, bs, id, g, watched);
  }

  lemma LandHeeded(fs: Pool, bs: Slots, id: FiberId, g: Fiber, watched: set<FiberId>)
    requires id in fs && Heeded(fs, bs, Watching(watched)) && id !in watched && g.activation == Inactive
    ensures Heeded(fs[id := g], Unbind(bs, id), Watching(watched).(dirty := {id}))
  {
    hide Satisfiable, ViewFull;
    var bs2 := Unbind(bs, id);
    forall x | x in fs
      ensures Satisfiable(bs2, x, fs[x].spec) ==> Satisfiable(bs, x, fs[x].spec)
      ensures Minded(bs, x, fs[x]) ==> Minded(bs2, x, fs[x])
    {
      FewerSlots(bs, bs2, x, fs[x]);
    }
  }

  lemma FewerSlots(bs: Slots, bs2: Slots, x: FiberId, f: Fiber)
    requires forall k | Resolves(bs2, x, k) :: Resolves(bs, x, k)
    ensures Satisfiable(bs2, x, f.spec) ==> Satisfiable(bs, x, f.spec)
    ensures Minded(bs, x, f) ==> Minded(bs2, x, f)
  {}

  lemma LandSlots(fs: Pool, bs: Slots, id: FiberId, g: Fiber)
    requires id in fs && SlotsOk(fs, bs) && g.spec == fs[id].spec
    ensures SlotsOk(fs[id := g], Unbind(bs, id))
  {}

  lemma LandWaiting(fs: Pool, bs: Slots, id: FiberId, g: Fiber)
    requires id in fs && Waiting(fs, bs, {}) && Doomed(fs, bs) && g.state == Inactive
    ensures Waiting(fs[id := g], Unbind(bs, id), {id}) && Doomed(fs[id := g], Unbind(bs, id))
  {
    var bs2 := Unbind(bs, id);
    forall x | x in fs && Satisfiable(bs2, x, fs[x].spec) ensures Satisfiable(bs, x, fs[x].spec) {
      forall k | k in fs[x].spec.RequiredKeys() ensures Resolves(bs, x, k) {
        assert Resolves(bs2, x, k);
      }
    }
  }

  lemma LandStep(w: World, id: FiberId, raised: bool, watched: set<FiberId>)
    requires Sound(w, Watching(watched)) && id in w.fibers && w.fibers[id].activation == Loading && InMotion(w.fibers[id])
    requires id !in watched
    ensures
      var w2 := w.(fibers := w.fibers[id := Landed(w.fibers[id], raised)], slots := Unbind(w.slots, id));
      && Sound(w2, Watching(watched).(dirty := {id}))
      && |Moving(w2.fibers)| == |Moving(w.fibers)| - 1
      && Withdrawing(w2.fibers) == Withdrawing(w.fibers)
  {
    hide Inv, LogOk, Moving, Withdrawing, Indexed, Bounded, Unbind;
    var g := Landed(w.fibers[id], raised);
    LandInv(w.fibers, w.slots, w.stamps, id, raised, watched);
    MovingLess(w.fibers, id, g);
    WithdrawingLoading(w.fibers, id, g);
    LogKept(w.log, w.fibers, id, g);
    SpecsIndexed(w, w.(fibers := w.fibers[id := g], slots := Unbind(w.slots, id)));
  }

  lemma WithdrawingLoading(fs: Pool, id: FiberId, g: Fiber)
    requires id in fs && fs[id].activation != Unloading && g.activation != Unloading
    ensures Withdrawing(fs[id := g]) == Withdrawing(fs)
  {}

  /** When a landed fiber needs no re-evaluation. */
  lemma LandedRests(w: World, id: FiberId, watched: set<FiberId>)
    requires Sound(w, Watching(watched).(dirty := {id})) && id in w.fibers && id !in watched
    requires w.fibers[id].reactivate < 0 || w.fibers[id].applyFailed || !w.fibers[id].spec.RequiredOnly()
    ensures Sound(w, Watching(watched))
  {
    hide Minded;
  }

  /** A fiber in motion between handlers: its apply is in flight. */
  lemma InFlightShape(w: World, id: FiberId)
    requires Sound(w, REST) && Withdrawing(w.fibers) == {} && id in w.fibers && InMotion(w.fibers[id])
    ensures w.fibers[id].activation == Loading && w.fibers[id].error == None && !w.fibers[id].applyFailed
    ensures w.fibers[id].stopRequested <==> w.fibers[id].state == Unloading
    ensures id !in w.fibers[id].committed.Values
    ensures forall k | k in w.slots && w.slots[k].provider == id :: k in w.fibers[id].spec.provide && w.slots[k].state == Landing
  {
    assert Shape(id, w.fibers[id]);
    assert id !in Withdrawing(w.fibers);
  }

  // ---------------------------------------------------------------------------------------------
  // Provisions and promotion

  lemma ProvideHold(fs: Pool, bs: Slots, id: FiberId, k: ServiceId, b: Binding)
    requires Hold(fs, bs) && SlotsOk(fs, bs) && Disciplined(fs) && id in fs && k in fs[id].spec.provide && !Published(fs[id])
    ensures Hold(fs, bs[k := b])
  {
    forall c, j | c in fs && Published(fs[c]) && j in fs[c].committed ensures HeldKey(fs, bs[k := b], fs[c].committed[j], j) {
      assert HeldKey(fs, bs, fs[c].committed[j], j);
      assert j in fs[bs[j].provider].spec.provide;
    }
  }

  lemma ProvideWaiting(fs: Pool, bs: Slots, k: ServiceId, b: Binding)
    requires Waiting(fs, bs, {}) && Doomed(fs, bs) && b.state == Landing
    ensures Waiting(fs, bs[k := b], {}) && Doomed(fs, bs[k := b])
  {
    forall x | x in fs && Satisfiable(bs[k := b], x, fs[x].spec) ensures Satisfiable(bs, x, fs[x].spec) {
      forall j | j in fs[x].spec.RequiredKeys() ensures Resolves(bs, x, j) {
        assert Resolves(bs[k := b], x, j);
      }
    }
  }

  lemma ProvideHeeded(fs: Pool, bs: Slots, k: ServiceId, b: Binding, watched: set<FiberId>)
    requires Heeded(fs, bs, Watching(watched)) && b.state == Landing
    ensures Heeded(fs, bs[k := b], Watching(watched))
  {
    hide Satisfiable, ViewFull, Minded;
    forall x | x in fs
      ensures Satisfiable(bs[k := b], x, fs[x].spec) ==> Satisfiable(bs, x, fs[x].spec)
      ensures Minded(bs, x, fs[x]) ==> Minded(bs[k := b], x, fs[x])
    {
      FewerSlots(bs, bs[k := b], x, fs[x]);
    }
  }

  lemma ProvideStep(w: World, id: FiberId, k: ServiceId, available: bool, watched: set<FiberId>)
    requires Sound(w, Watching(watched)) && id in w.fibers && w.fibers[id].activation == Loading
    requires k in w.fibers[id].spec.provide
    ensures Sound(w.(slots := w.slots[k := Binding(id, Landing, available)]), Watching(watched))
  {
    hide Disciplined, Shapes, Edges, Hold, Counters, Stamped, Waiting, Doomed, Heeded, LogOk;
    ProvideHeeded(w.fibers, w.slots, k, Binding(id, Landing, available), watched);
    ProvideHold(w.fibers, w.slots, id, k, Binding(id, Landing, available));
    ProvideWaiting(w.fibers, w.slots, k, Binding(id, Landing, available));
  }

  lemma PromoteHold(fs: Pool, bs: Slots, k: ServiceId)
    requires Hold(fs, bs) && k in bs
    ensures Hold(fs, bs[k := bs[k].(available := true)])
  {
    forall c, j | c in fs && Published(fs[c]) && j in fs[c].committed
      ensures HeldKey(fs, bs[k := bs[k].(available := true)], fs[c].committed[j], j)
    {
      assert HeldKey(fs, bs, fs[c].committed[j], j);
    }
  }

  lemma PromoteUnseen(w: World, k: ServiceId, x: FiberId)
    requires Indexed(w) && k in w.slots && x in w.fibers && x !in Woken(w.index, {k})
    requires Satisfiable(w.slots[k := w.slots[k].(available := true)], x, w.fibers[x].spec)
    ensures Satisfiable(w.slots, x, w.fibers[x].spec)
  {
    forall j | j in w.fibers[x].spec.RequiredKeys() ensures Resolves(w.slots, x, j) {
      assert Resolves(w.slots[k := w.slots[k].(available := true)], x, j);
      assert j in w.fibers[x].spec.Keys();
      assert x in w.index[j];
      assert j == k ==> x in Woken(w.index, {k});
    }
  }

  lemma PromoteWaiting(w: World, k: ServiceId)
    requires Waiting(w.fibers, w.slots, {}) && Doomed(w.fibers, w.slots) && Indexed(w) && k in w.slots
    requires Withdrawing(w.fibers) == {}
    ensures Waiting(w.fibers, w.slots[k := w.slots[k].(available := true)], Woken(w.index, {k}))
    ensures Doomed(w.fibers, w.slots[k := w.slots[k].(available := true)])
  {
    hide Satisfiable, Indexed;
    forall x | x in w.fibers && x !in Woken(w.index, {k})
               && Satisfiable(w.slots[k := w.slots[k].(available := true)], x, w.fibers[x].spec)
      ensures Satisfiable(w.slots, x, w.fibers[x].spec)
    {
      PromoteUnseen(w, k, x);
    }
    forall x | x in w.fibers ensures w.fibers[x].activation != Unloading {
      assert x !in Withdrawing(w.fibers);
    }
  }

  lemma PromoteMinded(w: World, k: ServiceId, x: FiberId)
    requires Indexed(w) && k in w.slots && x in w.fibers && x !in Woken(w.index, {k})
    ensures Minded(w.slots, x, w.fibers[x]) ==> Minded(w.slots[k := w.slots[k].(available := true)], x, w.fibers[x])
  {
    var bs2 := w.slots[k := w.slots[k].(available := true)];
    if Satisfiable(bs2, x, w.fibers[x].spec) {
      PromoteUnseen(w, k, x);
    }
    forall j | j in w.fibers[x].spec.Keys() && Resolves(bs2, x, j) ensures Resolves(w.slots, x, j) {
      assert x in w.index[j];
      assert j == k ==> x in Woken(w.index, {k});
    }
  }

  lemma PromoteHeeded(w: World, k: ServiceId, watched: set<FiberId>)
    requires Heeded(w.fibers, w.slots, Watching(watched)) && Indexed(w) && k in w.slots && Withdrawing(w.fibers) == {}
    ensures Heeded(w.fibers, w.slots[k := w.slots[k].(available := true)], Watching(watched).(dirty := Woken(w.index, {k})))
  {
    hide Minded, Satisfiable, Indexed;
    forall x | x in w.fibers ensures w.fibers[x].activation != Unloading {
      assert x !in Withdrawing(w.fibers);
    }
    forall x | x in w.fibers && x !in Woken(w.index, {k}) && Minded(w.slots, x, w.fibers[x])
      ensures Minded(w.slots[k := w.slots[k].(available := true)], x, w.fibers[x])
    {
      PromoteMinded(w, k, x);
    }
  }

  lemma PromoteStep(w: World, k: ServiceId, watched: set<FiberId>)
    requires Sound(w, Watching(watched)) && k in w.slots && Withdrawing(w.fibers) == {}
    ensures Sound(w.(slots := w.slots[k := w.slots[k].(available := true)]), Watching(watched).(dirty := Woken(w.index, {k})))
  {
    hide Disciplined, Shapes, Edges, Hold, Counters, Stamped, Waiting, Doomed, Heeded, LogOk;
    PromoteHeeded(w, k, watched);
    PromoteHold(w.fibers, w.slots, k);
    PromoteWaiting(w, k);
  }

  /** A key bound but not available is not held by any published fiber that needs all its keys. */
  lemma PromoteUnheld(w: World, k: ServiceId)
    requires Sound(w, REST) && k in w.slots && !w.slots[k].available
    ensures Unheld(w.(slots := w.slots[k := w.slots[k].(available := true)]), k)
  {
    hide Disciplined, Edges, Counters, Stamped, Waiting, Doomed, Heeded, LogOk;
    forall c | c in w.fibers && Published(w.fibers[c]) && w.fibers[c].spec.RequiredOnly()
      ensures k !in w.fibers[c].spec.Keys()
    {
      if k in w.fibers[c].spec.Keys() {
        UnboundUnheld(w.fibers, w.slots, c, k);
      }
    }
  }

  // ---------------------------------------------------------------------------------------------
  // Mounting and erasing

  function Fresh(c: Component): Fiber {
    Fiber(c, Inactive, Inactive, map[], {}, 0, 0, false, None, false)
  }

  function Enrolled(index: map<ServiceId, set<FiberId>>, id: FiberId, c: Component): map<ServiceId, set<FiberId>> {
    map k | k in index.Keys + c.Keys() ::
      (if k in index then index[k] else {}) + (if k in c.Keys() then {id} else {})
  }

  lemma MountStep(w: World, c: Component, watched: set<FiberId>)
    requires Sound(w, Watching(watched)) && Admissible(c)
    requires forall p | p in w.fibers :: w.fibers[p].spec.provide !! c.provide
    ensures w.nextId !in w.fibers
    ensures
      var w2 := w.(fibers := w.fibers[w.nextId := Fresh(c)], index := Enrolled(w.index, w.nextId, c), nextId := w.nextId + 1);
      && Sound(w2, Watching(watched + {w.nextId}).(dirty := {w.nextId}))
      && Moving(w2.fibers) == Moving(w.fibers)
      && Withdrawing(w2.fibers) == Withdrawing(w.fibers)
  {
    hide Disciplined, Shapes, Edges, Hold, Counters, Stamped, SlotsOk, Waiting, Doomed, Heeded, Indexed, Views, Ordered, Moving, Withdrawing;
    MountEdges(w.fibers, w.slots, w.nextId, c);
    MountHold(w.fibers, w.slots, w.nextId, c);
    MountDiscipline(w.fibers, w.nextId, c);
    MountStamped(w.fibers, w.stamps, w.nextId, c);
    MountPool(w.fibers, w.slots, w.nextId, c);
    MountSets(w.fibers, w.nextId, c);
    MountWaiting(w.fibers, w.slots, w.nextId, c);
    MountHeeded(w.fibers, w.slots, w.nextId, c, watched);
    MountIndex(w, c);
  }

  lemma MountEdges(fs: Pool, bs: Slots, id: FiberId, c: Component)
    requires id !in fs && Edges(fs, {}) && Hold(fs, bs)
    ensures Edges(fs[id := Fresh(c)], {})
  {
    var fs2 := fs[id := Fresh(c)];
    forall x, p | x in fs && Relies(fs[x], p) ensures p in fs {
      ReliedInstalled(fs, bs, x, p);
    }
    forall p | p in fs2 ensures fs2[p].consumers == Reliers(fs2, p) + Owed({}, p) {
      assert Reliers(fs2, p) == Reliers(fs, p);
      assert p in fs ==> fs[p].consumers == Reliers(fs, p) + Owed({}, p);
      assert p !in fs ==> Reliers(fs, p) == {};
    }
  }

  lemma MountHold(fs: Pool, bs: Slots, id: FiberId, c: Component)
    requires id !in fs && Hold(fs, bs)
    ensures Hold(fs[id := Fresh(c)], bs)
  {
    forall x, k | x in fs && Published(fs[x]) && k in fs[x].committed
      ensures HeldKey(fs[id := Fresh(c)], bs, fs[x].committed[k], k)
    {
      assert HeldKey(fs, bs, fs[x].committed[k], k);
    }
  }

  lemma MountDiscipline(fs: Pool, id: FiberId, c: Component)
    requires id !in fs && Disciplined(fs)
    requires Admissible(c) && forall p | p in fs :: fs[p].spec.provide !! c.provide
    ensures Disciplined(fs[id := Fresh(c)])
  {}

  lemma MountStamped(fs: Pool, stamps: map<FiberId, nat>, id: FiberId, c: Component)
    requires id !in fs && Stamped(fs, stamps)
    ensures Stamped(fs[id := Fresh(c)], stamps)
  {
    forall x, p | x in fs && Relies(fs[x], p) ensures p in stamps && stamps[p] < stamps[x] {}
  }

  lemma MountPool(fs: Pool, bs: Slots, id: FiberId, c: Component)
    requires id !in fs && Shapes(fs) && Counters(fs) && SlotsOk(fs, bs)
    ensures var fs2 := fs[id := Fresh(c)]; Shapes(fs2) && Counters(fs2) && SlotsOk(fs2, bs)
  {
    assert Shape(id, Fresh(c));
  }

  lemma MountSets(fs: Pool, id: FiberId, c: Component)
    requires id !in fs
    ensures var fs2 := fs[id := Fresh(c)];
      Moving(fs2) == Moving(fs) && Withdrawing(fs2) == Withdrawing(fs) && Views(fs2) == Views(fs)
  {}

  lemma MountWaiting(fs: Pool, bs: Slots, id: FiberId, c: Component)
    requires id !in fs && Waiting(fs, bs, {}) && Doomed(fs, bs)
    ensures Waiting(fs[id := Fresh(c)], bs, {id}) && Doomed(fs[id := Fresh(c)], bs)
  {}

  lemma MountHeeded(fs: Pool, bs: Slots, id: FiberId, c: Component, watched: set<FiberId>)
    requires id !in fs && Heeded(fs, bs, Watching(watched))
    ensures Heeded(fs[id := Fresh(c)], bs, Watching(watched + {id}).(dirty := {id}))
  {
    hide Minded, Satisfiable;
  }

  lemma MountIndex(w: World, c: Component)
    requires w.nextId !in w.fibers && Indexed(w) && Bounded(w)
    ensures
      var w2 := w.(fibers := w.fibers[w.nextId := Fresh(c)], index := Enrolled(w.index, w.nextId, c), nextId := w.nextId + 1);
      Indexed(w2) && Bounded(w2)
  {}

  function Unindexed(index: map<ServiceId, set<FiberId>>, id: FiberId): map<ServiceId, set<FiberId>> {
    map k | k in index && index[k] - {id} != {} :: index[k] - {id}
  }

  lemma EraseStep(w: World, id: FiberId, watched: set<FiberId>)
    requires Sound(w, Watching(watched)) && id in w.fibers && w.fibers[id].state == Inactive
    ensures
      var w2 := w.(fibers := w.fibers - {id}, index := Unindexed(w.index, id));
      && Sound(w2, Watching(watched))
      && Moving(w2.fibers) == Moving(w.fibers)
      && Withdrawing(w2.fibers) == Withdrawing(w.fibers)
  {
    hide Disciplined, Shapes, Edges, Hold, Counters, Stamped, SlotsOk, Waiting, Doomed, Heeded, Indexed, Views, Ordered, Moving, Withdrawing;
    ShapeOf(w, Watching(watched), id);
    EraseHeeded(w.fibers, w.slots, id, watched);
    EraseEdges(w.fibers, w.slots, id);
    EraseHold(w.fibers, w.slots, id);
    ErasePool(w.fibers, w.slots, id);
    EraseStamped(w.fibers, w.slots, w.stamps, id);
    EraseSets(w.fibers, id);
    EraseIndex(w, id);
  }

  lemma EraseHold(fs: Pool, bs: Slots, id: FiberId)
    requires id in fs && !Published(fs[id]) && Hold(fs, bs)
    ensures Hold(fs - {id}, bs)
  {
    forall x, k | x in fs - {id} && Published(fs[x]) && k in fs[x].committed
      ensures HeldKey(fs - {id}, bs, fs[x].committed[k], k)
    {
      assert HeldKey(fs, bs, fs[x].committed[k], k);
    }
  }

  lemma EraseSets(fs: Pool, id: FiberId)
    requires id in fs && fs[id].activation == Inactive && fs[id].state == Inactive
    ensures var fs2 := fs - {id};
      Moving(fs2) == Moving(fs) && Withdrawing(fs2) == Withdrawing(fs) && Views(fs2) == Views(fs)
  {}

  lemma ErasePool(fs: Pool, bs: Slots, id: FiberId)
    requires id in fs && fs[id].activation == Inactive
    requires Disciplined(fs) && Shapes(fs) && Counters(fs) && SlotsOk(fs, bs)
    ensures var fs2 := fs - {id}; Disciplined(fs2) && Shapes(fs2) && Counters(fs2) && SlotsOk(fs2, bs)
  {}

  lemma EraseStamped(fs: Pool, bs: Slots, stamps: map<FiberId, nat>, id: FiberId)
    requires Stamped(fs, stamps) && Waiting(fs, bs, {}) && Doomed(fs, bs)
    ensures var fs2 := fs - {id}; Stamped(fs2, stamps) && Waiting(fs2, bs, {}) && Doomed(fs2, bs)
  {
    forall c, p | c in fs - {id} && Relies(fs[c], p) ensures p in stamps && stamps[p] < stamps[c] {}
  }

  lemma EraseHeeded(fs: Pool, bs: Slots, id: FiberId, watched: set<FiberId>)
    requires Heeded(fs, bs, Watching(watched))
    ensures Heeded(fs - {id}, bs, Watching(watched))
  {
    hide Minded, Satisfiable;
  }

  lemma EraseEdges(fs: Pool, bs: Slots, id: FiberId)
    requires id in fs && !Published(fs[id]) && Edges(fs, {})
    ensures Edges(fs - {id}, {})
  {
    forall p | p in fs - {id} ensures (fs - {id})[p].consumers == Reliers(fs - {id}, p) + Owed({}, p) {
      assert fs[p].consumers == Reliers(fs, p) + Owed({}, p);
      assert Reliers(fs - {id}, p) == Reliers(fs, p);
    }
  }

  lemma EraseIndex(w: World, id: FiberId)
    requires Indexed(w) && Bounded(w)
    ensures
      var w2 := w.(fibers := w.fibers - {id}, index := Unindexed(w.index, id));
      Indexed(w2) && Bounded(w2)
  {
    forall x, k | x in w.fibers - {id} && k in w.fibers[x].spec.Keys()
      ensures k in Unindexed(w.index, id) && x in Unindexed(w.index, id)[k]
    {
      assert x in w.index[k] - {id};
    }
  }

  // ---------------------------------------------------------------------------------------------
  // Retirement

  function Retired(f: Fiber): Fiber {
    f.(reactivate := -1)
  }

  lemma RetireFlagStep(w: World, id: FiberId, watched: set<FiberId>)
    requires Sound(w, Watching(watched)) && id in w.fibers
    ensures
      var w2 := w.(fibers := w.fibers[id := Retired(w.fibers[id])]);
      && Sound(w2, Watching(watched))
      && |Moving(w2.fibers)| == |Moving(w.fibers)|
      && Withdrawing(w2.fibers) == Withdrawing(w.fibers)
  {
    hide LogOk, Indexed, Bounded, Moving, Withdrawing, Disciplined, Edges, Hold, SlotsOk, Counters, Stamped, Shape, Shapes, Waiting, Doomed, Heeded;
    var fs, bs, g := w.fibers, w.slots, Retired(w.fibers[id]);
    RetiredShape(fs, id);
    DisciplinedAt(fs, id, g);
    ShapesAt(fs, id, g);
    EdgesAt(fs, {}, id, g);
    HoldAt(fs, bs, id, g, bs);
    SlotsAt(fs, bs, id, g);
    RetiredCounts(fs, id);
    RetiredWaiting(fs, bs, id);
    RetiredHeeded(fs, bs, id, watched);
    CountersAt(fs, id, g);
    StampedAt(fs, w.stamps, id, g);
    MovingSame(fs, id, g);
    WithdrawingAt(fs, id, g);
    LogKept(w.log, fs, id, g);
    SpecsIndexed(w, w.(fibers := fs[id := g]));
  }

  lemma RetiredShape(fs: Pool, id: FiberId)
    requires id in fs && Shapes(fs)
    ensures Shape(id, Retired(fs[id]))
  {
    assert Shape(id, fs[id]);
  }

  lemma RetiredWaiting(fs: Pool, bs: Slots, id: FiberId)
    requires id in fs && Waiting(fs, bs, {}) && Doomed(fs, bs)
    ensures Waiting(fs[id := Retired(fs[id])], bs, {}) && Doomed(fs[id := Retired(fs[id])], bs)
  {}

  lemma RetiredHeeded(fs: Pool, bs: Slots, id: FiberId, watched: set<FiberId>)
    requires id in fs && Heeded(fs, bs, Watching(watched))
    ensures Heeded(fs[id := Retired(fs[id])], bs, Watching(watched))
  {
    hide Satisfiable, ViewFull;
  }

  lemma RetiredCounts(fs: Pool, id: FiberId)
    requires id in fs && Counters(fs)
    ensures Retired(fs[id]).activation == Unloading ==> Retired(fs[id]).remaining == |Retired(fs[id]).consumers|
  {}

  /** A chain of reliance from `path[0]` up to its last fiber. */
  ghost predicate Chain(fs: Pool, path: seq<FiberId>) {
    && path != []
    && (forall i | 0 < i < |path| :: path[i] in fs && Relies(fs[path[i]], path[i - 1]))
  }

  ghost predicate DependsOn(fs: Pool, x: FiberId, id: FiberId) {
    exists path :: Chain(fs, path) && path[0] == id && path[|path| - 1] == x
  }

  /** The fibers relying on `id`, directly or through others; `id` itself included. */
  ghost function Dependents(fs: Pool, id: FiberId): set<FiberId> {
    set x | x in fs && DependsOn(fs, x, id)
  }

  lemma DependentsClosed(fs: Pool, id: FiberId)
    requires id in fs
    ensures id in Dependents(fs, id)
    ensures Closed(fs, Dependents(fs, id))
  {
    assert Chain(fs, [id]) && [id][0] == id && [id][|[id]| - 1] == id;
    forall c, p | c in fs && p in Dependents(fs, id) && Relies(fs[c], p) ensures c in Dependents(fs, id) {
      var path :| Chain(fs, path) && path[0] == id && path[|path| - 1] == p;
      var longer := path + [c];
      assert Chain(fs, longer) && longer[0] == id && longer[|longer| - 1] == c;
    }
  }

  lemma LinkFalls(v: World, w: World, cx: Cascade, c: FiberId, p: FiberId)
    requires Leads(v, w) && Sound(w, cx)
    requires c in v.fibers && Relies(v.fibers[c], p) && p in w.fibers && !Published(w.fibers[p])
    ensures c in w.fibers && !Published(w.fibers[c])
  {
    hide Shapes, Edges, Disciplined, Counters, Stamped, SlotsOk, Waiting, Doomed, Heeded, LogOk, Indexed, Hold;
    assert Moves(c, v.fibers[c], w.fibers[c], v.slots, w.slots);
    if Published(w.fibers[c]) {
      ReliedInstalled(w.fibers, w.slots, c, p);
    }
  }

  /** When the root of a chain is no longer published, nothing along the chain is. */
  lemma {:induction false} ChainFalls(v: World, w: World, cx: Cascade, path: seq<FiberId>)
    requires Leads(v, w) && Sound(w, cx)
    requires Chain(v.fibers, path) && path[0] in w.fibers && !Published(w.fibers[path[0]])
    ensures path[|path| - 1] in w.fibers && !Published(w.fibers[path[|path| - 1]])
    decreases |path|
  {
    hide Leads, Sound, Published, Relies;
    if |path| > 1 {
      ChainFalls(v, w, cx, path[..|path| - 1]);
      LinkFalls(v, w, cx, path[|path| - 1], path[|path| - 2]);
    }
  }

  lemma DependentsFall(v: World, w: World, cx: Cascade, id: FiberId)
    requires Leads(v, w) && Sound(w, cx)
    requires id in w.fibers && !Published(w.fibers[id])
    ensures forall x | x in Dependents(v.fibers, id) :: x in w.fibers && !Published(w.fibers[x])
  {
    forall x | x in Dependents(v.fibers, id) ensures x in w.fibers && !Published(w.fibers[x]) {
      var path :| Chain(v.fibers, path) && path[0] == id && path[|path| - 1] == x;
      ChainFalls(v, w, cx, path);
    }
  }

  // ---------------------------------------------------------------------------------------------
  // Glue for the engine's handlers

  lemma CalmEmpty(v: World, w: World)
    requires Calm(v, w) && Withdrawing(v.fibers) == {}
    ensures Withdrawing(w.fibers) == {}
  {}

  lemma WokenBy(index: map<ServiceId, set<FiberId>>, k: ServiceId)
    ensures Woken(index, {k}) - (if k in index then index[k] else {}) == {}
  {}

  lemma NotWithdrawing(fs: Pool, id: FiberId, g: Fiber)
    requires id in fs && fs[id].activation != Unloading && g.activation != Unloading
    ensures Withdrawing(fs[id := g]) == Withdrawing(fs)
  {}

  /** Whether a completing apply publishes its fiber. */
  ghost predicate Publishes(w: World, id: FiberId, raised: bool)
    requires id in w.fibers
  {
    !raised && w.fibers[id].state == Loading && ViewLive(w.slots, w.fibers[id])
  }

  lemma DivertedFlag(w: World, id: FiberId)
    requires Sound(w, REST) && Withdrawing(w.fibers) == {} && id in w.fibers && InMotion(w.fibers[id])
    ensures w.fibers[id].state == Unloading && w.fibers[id].spec.RequiredOnly() ==> w.fibers[id].reactivate == -1
  {
    InFlightShape(w, id);
  }

  lemma PublishedMembers(w: World, id: FiberId)
    requires id in w.fibers
    ensures AfterPublish(w, id).fibers.Keys == w.fibers.Keys
    ensures AfterPublish(w, id).fibers[id].spec == w.fibers[id].spec
  {}

  lemma PublishedSpec(v: World, w: World, id: FiberId)
    requires id in v.fibers && Leads(AfterPublish(v, id), w)
    ensures id in w.fibers && w.fibers[id].spec == v.fibers[id].spec
  {
    hide AfterPublish, Leads;
    PublishedMembers(v, id);
    SameMembers(AfterPublish(v, id), w);
  }

  lemma PublishedIndex(w: World, id: FiberId)
    requires id in w.fibers
    ensures AfterPublish(w, id).index == w.index
  {}

  /** A fiber that has just published is not undone by waking its dependents. */
  lemma StaysActive(w0: World, w1: World, w: World, id: FiberId)
    requires Sound(w0, REST) && id in w0.fibers && w0.fibers[id].state == Loading && ViewLive(w0.slots, w0.fibers[id])
    requires w1 == AfterPublish(w0, id) && Leads(w1, w) && Spared(w1, w, {}) && Calm(w1, w)
    requires Withdrawing(w1.fibers) == {}
    requires w0.fibers[id].spec.provide == {} ==> w == w1
    ensures id in w.fibers && w.fibers[id].activation == Active
  {
    assert Admissible(w0.fibers[id].spec);
    if w0.fibers[id].spec.provide != {} {
      assert Moves(id, w1.fibers[id], w.fibers[id], w1.slots, w.slots);
      assert id !in Withdrawing(w.fibers);
    }
  }

  lemma PublicationHolds(w0: World, w1: World, w: World, id: FiberId)
    requires Sound(w0, REST) && id in w0.fibers && w0.fibers[id].state == Loading && ViewLive(w0.slots, w0.fibers[id])
    requires w1 == AfterPublish(w0, id) && Leads(w1, w) && Spared(w1, w, {}) && Calm(w1, w)
    requires Withdrawing(w1.fibers) == {}
    requires w0.fibers[id].spec.provide == {} ==> w == w1
    ensures Withdrawing(w.fibers) == {}
    ensures id in w.fibers && w.fibers[id].activation == Active
  {
    hide Sound, Withdrawing, Leads, Calm, Spared, ViewLive, AfterPublish;
    CalmEmpty(w1, w);
    StaysActive(w0, w1, w, id);
  }

  // ---------------------------------------------------------------------------------------------
  // Fibers off their target

  /** Neither in motion nor retired nor failed, and not where the slots would have it: inactive though
      all it requires is served, or active on another view than the one it would commit to now. */
  predicate OffTarget(bs: Slots, x: FiberId, f: Fiber) {
    && f.reactivate >= 0 && !f.applyFailed
    && ((f.state == Inactive && Satisfiable(bs, x, f.spec)) || (f.state == Active && !AtTarget(bs, x, f)))
  }

  function Astray(w: World): set<FiberId> {
    set x | x in w.fibers && OffTarget(w.slots, x, w.fibers[x])
  }

  /** Between handlers, being at target is missing nothing. */
  lemma AstrayMisses(w: World, x: FiberId)
    requires Sound(w, REST) && Withdrawing(w.fibers) == {} && x in w.fibers
    ensures x in Astray(w) <==> !Minded(w.slots, x, w.fibers[x])
  {
    hide Edges, Counters, Stamped, Waiting, Doomed, Heeded, Disciplined, LogOk, Indexed, Bounded;
    var bs, f := w.slots, w.fibers[x];
    assert Shape(x, f);
    if f.state == Active {
      forall k | k in f.committed ensures Resolves(bs, x, k) && bs[k].provider == f.committed[k] {
        HeldNow(w, x, k);
      }
      assert Satisfiable(bs, x, f.spec);
      assert ViewFull(bs, x, f) <==> f.committed == Resolution(bs, x, f.spec);
    }
  }

  lemma HeldNow(w: World, x: FiberId, k: ServiceId)
    requires Sound(w, REST) && Withdrawing(w.fibers) == {} && x in w.fibers && Published(w.fibers[x]) && k in w.fibers[x].committed
    ensures Resolves(w.slots, x, k) && w.slots[k].provider == w.fibers[x].committed[k]
  {
    hide Edges, Counters, Stamped, Waiting, Doomed, Heeded, Disciplined, LogOk, Indexed, Bounded;
    var p := w.fibers[x].committed[k];
    assert Shape(x, w.fibers[x]) && p in w.fibers[x].committed.Values;
    assert HeldKey(w.fibers, w.slots, p, k);
    assert p !in Withdrawing(w.fibers);
  }

  /** Whom a handler watches: everybody that is not off its target, but for some. */
  function Attended(w: World, but: set<FiberId>): set<FiberId> {
    w.fibers.Keys - Astray(w) - but
  }

  lemma Attend(w: World, but: set<FiberId>)
    requires Sound(w, REST) && Withdrawing(w.fibers) == {}
    ensures Sound(w, Watching(Attended(w, but))) && Attended(w, but) !! but
  {
    hide Minded, Astray, Satisfiable;
    forall x | x in Attended(w, but) && x in w.fibers ensures Minded(w.slots, x, w.fibers[x]) {
      AstrayMisses(w, x);
    }
  }

  /** At the end of the handler whoever was watched is not off its target. */
  lemma AttendedStay(v: World, but: set<FiberId>, w: World, added: set<FiberId>)
    requires Sound(w, Watching(Attended(v, but) + added)) && Withdrawing(w.fibers) == {}
    requires w.fibers.Keys <= v.fibers.Keys + added
    ensures Sound(w, REST) && Astray(w) <= Astray(v) + but
  {
    hide Minded, OffTarget, Satisfiable;
    var watched := Attended(v, but) + added;
    Unwatch(w, Watching(watched), {});
    forall x | x in watched && x in w.fibers ensures x !in Astray(w) {
      AstrayMisses(w, x);
    }
  }

  /** A fiber that needs all its keys is never off its target between handlers. */
  lemma NeedyOnTarget(w: World, x: FiberId)
    requires Sound(w, REST) && Withdrawing(w.fibers) == {} && x in w.fibers && w.fibers[x].spec.RequiredOnly()
    ensures x !in Astray(w)
  {
    AstrayMisses(w, x);
    assert Shape(x, w.fibers[x]);
  }

  /** Whether the completing apply of a fiber in motion leaves it off its target: its view is live, so
      nothing asks for another load, but the fiber was diverted, or something it declares has come up
      since it started to load. */
  predicate Strays(w: World, id: FiberId, raised: bool)
    requires id in w.fibers
  {
    var f := w.fibers[id];
    !raised && f.reactivate >= 0 && ViewLive(w.slots, f)
    && (f.state == Unloading || f.committed != Resolution(w.slots, id, f.spec))
  }

  lemma PublishedStray(v: World, w: World, id: FiberId)
    requires Sound(v, REST) && Withdrawing(v.fibers) == {} && Sound(w, REST) && Withdrawing(w.fibers) == {}
    requires id in v.fibers && v.fibers[id].state == Loading && ViewLive(v.slots, v.fibers[id])
    requires id in w.fibers && w.fibers[id].spec == v.fibers[id].spec
    requires v.fibers[id].spec.provide == {} ==> w == AfterPublish(v, id)
    ensures id in Astray(w) <==> Strays(v, id, false)
  {
    hide Sound, Withdrawing, ViewLive, Satisfiable, Component.RequiredOnly, Resolution, ServeSlots, Astray;
    InFlightShape(v, id);
    LiveSatisfiable(v, id);
    if v.fibers[id].spec.RequiredOnly() {
      NeedyOnTarget(w, id);
      LiveWhole(v.slots, id, v.fibers[id]);
    } else {
      LeafProvides(v, id);
      ServeNothing(v.slots, id);
      LeafPublished(v, id);
    }
  }

  lemma LiveWhole(bs: Slots, id: FiberId, f: Fiber)
    requires ViewLive(bs, f) && f.spec.RequiredOnly() && f.committed.Keys <= f.spec.Keys() && f.spec.RequiredKeys() <= f.committed.Keys
    requires forall k | k in f.committed :: Resolves(bs, id, k)
    ensures f.committed == Resolution(bs, id, f.spec)
  {}

  lemma LeafProvides(v: World, id: FiberId)
    requires Sound(v, REST) && id in v.fibers && !v.fibers[id].spec.RequiredOnly()
    ensures v.fibers[id].spec.provide == {}
  {
    assert Admissible(v.fibers[id].spec);
  }

  lemma ServeNothing(bs: Slots, id: FiberId)
    requires forall k | k in bs :: bs[k].provider != id
    ensures ServeSlots(bs, id) == bs
  {}

  lemma LeafPublished(v: World, id: FiberId)
    requires id in v.fibers && v.fibers[id].state == Loading && !v.fibers[id].applyFailed
    requires ServeSlots(v.slots, id) == v.slots && Satisfiable(v.slots, id, v.fibers[id].spec) && ViewLive(v.slots, v.fibers[id])
    ensures id in Astray(AfterPublish(v, id)) <==> Strays(v, id, false)
  {
    hide Satisfiable, Resolution, ViewLive;
  }

  lemma LiveSatisfiable(v: World, id: FiberId)
    requires Sound(v, REST) && id in v.fibers && v.fibers[id].state != Inactive && ViewLive(v.slots, v.fibers[id])
    ensures Satisfiable(v.slots, id, v.fibers[id].spec)
    ensures forall k | k in v.fibers[id].committed :: Resolves(v.slots, id, k)
    ensures v.fibers[id].committed.Keys <= v.fibers[id].spec.Keys()
    ensures v.fibers[id].spec.RequiredKeys() <= v.fibers[id].committed.Keys
  {
    hide Edges, Hold, Counters, Stamped, Waiting, Doomed, Heeded, Disciplined, LogOk, Indexed, Bounded;
    assert Shape(id, v.fibers[id]);
    forall k | k in v.fibers[id].committed ensures Resolves(v.slots, id, k) {
      assert v.fibers[id].committed[k] in v.fibers[id].committed.Values;
    }
  }

  lemma SameDependents(fs: Pool, id: FiberId)
    requires id in fs
    ensures Dependents(fs[id := Retired(fs[id])], id) == Dependents(fs, id)
  {
    var fs2 := fs[id := Retired(fs[id])];
    forall c, p | c in fs ensures Relies(fs2[c], p) <==> Relies(fs[c], p) {}
    forall path ensures Chain(fs2, path) <==> Chain(fs, path) {}
    forall x ensures DependsOn(fs2, x, id) <==> DependsOn(fs, x, id) {}
  }

  lemma RootUnloadable(w: World, id: FiberId, watched: set<FiberId>, scope: set<FiberId>)
    requires Sound(w, REST) && Withdrawing(w.fibers) == {} && id in w.fibers && w.fibers[id].reactivate == -1
    requires w.fibers[id].activation == Active && id in scope && Closed(w.fibers, scope)
    ensures Unloadable(w, id, Watching(watched), scope)
  {}
}
