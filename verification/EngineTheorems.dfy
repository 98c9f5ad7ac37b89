/**
  What the engine's invariant means: settled fibers are at their target, reliance is acyclic and is
  exactly what the guard counts, providers withdraw last over whole runs, the engine's own runtime
  check passes exactly when no load has gone stale, and every completion brings quiescence closer.
 */
module EngineTheorems {
  import opened Basics
  import opened Fibers
  import opened FiberSteps
  import opened Cascades
  import opened Handlers
  import opened Engine
  import opened Sums

  /** Between handlers. */
  ghost predicate AtRest(w: World) {
    Sound(w, REST) && Withdrawing(w.fibers) == {}
  }

  // ---------------------------------------------------------------------------------------------
  // Targets

  /** An active fiber that needs all its keys holds exactly what they resolve to now. */
  lemma ActiveAtTarget(w: World, x: FiberId)
    requires AtRest(w) && x in w.fibers && w.fibers[x].spec.RequiredOnly() && w.fibers[x].state == Active
    ensures AtTarget(w.slots, x, w.fibers[x])
  {
    hide Sound, Withdrawing, Published;
    CommittedKeys(w, x);
    var bs, f := w.slots, w.fibers[x];
    forall k | k in f.spec.Keys() ensures Resolves(bs, x, k) && bs[k].provider == f.committed[k] {
      HeldNow(w, x, k);
    }
    assert f.committed == Resolution(bs, x, f.spec);
  }

  lemma CommittedKeys(w: World, x: FiberId)
    requires AtRest(w) && x in w.fibers && w.fibers[x].spec.RequiredOnly() && w.fibers[x].state == Active
    ensures w.fibers[x].committed.Keys == w.fibers[x].spec.Keys() && Published(w.fibers[x])
  {
    assert Shape(x, w.fibers[x]);
  }

  /** Settled means at target: with nothing in motion, a fiber neither retired nor failed is active
      if and only if every key it declares is served, and its view is that resolution. */
  lemma SettledAtTarget(w: World, x: FiberId)
    requires AtRest(w) && Moving(w.fibers) == {}
    requires x in w.fibers && w.fibers[x].spec.RequiredOnly()
    requires w.fibers[x].reactivate != -1 && !w.fibers[x].applyFailed
    ensures w.fibers[x].state == Active <==> Satisfiable(w.slots, x, w.fibers[x].spec)
    ensures w.fibers[x].state == Active ==> w.fibers[x].committed == Resolution(w.slots, x, w.fibers[x].spec)
  {
    assert x !in Moving(w.fibers);
    assert Shape(x, w.fibers[x]);
    if w.fibers[x].state == Active {
      ActiveAtTarget(w, x);
    }
  }

  /** Active on the view it would commit to now, or inactive because a required key is missing. */
  predicate OnTarget(bs: Slots, x: FiberId, f: Fiber) {
    if Satisfiable(bs, x, f.spec) then f.state == Active && f.committed == Resolution(bs, x, f.spec) else f.state == Inactive
  }

  /** Between handlers, whoever is neither retired nor failed nor in motion is on its target or off it;
      and only a fiber with optional dependencies can be off it. */
  lemma SettledOnTarget(w: World, x: FiberId)
    requires AtRest(w) && x in w.fibers && !InMotion(w.fibers[x]) && w.fibers[x].reactivate != -1 && !w.fibers[x].applyFailed
    ensures OnTarget(w.slots, x, w.fibers[x]) <==> x !in Astray(w)
    ensures w.fibers[x].spec.RequiredOnly() ==> x !in Astray(w)
  {
    hide Edges, Hold, Counters, Stamped, Waiting, Doomed, Heeded, Disciplined, LogOk, Indexed, Bounded, Resolution;
    assert Shape(x, w.fibers[x]);
    AstrayMisses(w, x);
    if w.fibers[x].spec.RequiredOnly() {
      NeedyOnTarget(w, x);
    }
    if w.fibers[x].state == Active {
      ActiveServed(w, x);
    }
  }

  /** An active fiber has all it requires. */
  lemma ActiveServed(w: World, x: FiberId)
    requires AtRest(w) && x in w.fibers && w.fibers[x].state == Active
    ensures Satisfiable(w.slots, x, w.fibers[x].spec)
  {
    hide Edges, Hold, Counters, Stamped, Waiting, Doomed, Heeded, Disciplined, LogOk, Indexed, Bounded, Withdrawing;
    assert Shape(x, w.fibers[x]);
    forall k | k in w.fibers[x].spec.RequiredKeys() ensures Resolves(w.slots, x, k) {
      HeldNow(w, x, k);
    }
  }

  /**
    The completing apply of a fiber that provides nothing, is not retired and did not raise. It ends on
    its target if and only if, when its view is live, the view is everything that resolves and nobody
    diverted the fiber, and, when its view is stale, something it requires is missing. A stale load is
    tried again whenever it can be; a diverted one whose view is live is not, and then stays down.
   */
  lemma LeafCompletion(v: World, w: World, id: FiberId)
    requires AtRest(v) && AtRest(w) && id in v.fibers && InMotion(v.fibers[id]) && v.fibers[id].spec.provide == {}
    requires v.fibers[id].reactivate != -1 && Completes(v, w, id, false)
    ensures
      var f := v.fibers[id];
      && id in w.fibers && w.slots == v.slots
      && (OnTarget(w.slots, id, w.fibers[id]) <==>
            if ViewLive(v.slots, f) then f.state == Loading && f.committed == Resolution(v.slots, id, f.spec)
            else !Satisfiable(v.slots, id, f.spec))
      && (!ViewLive(v.slots, f) && Satisfiable(v.slots, id, f.spec) ==>
            w.fibers[id].state == Loading && w.fibers[id].committed == Resolution(v.slots, id, f.spec))
      && (ViewLive(v.slots, f) && f.state == Unloading ==>
            w.fibers[id].state == Inactive && Satisfiable(v.slots, id, f.spec))
  {
    hide Sound, Withdrawing, ViewLive, Satisfiable, Resolution, Unbind, ServeSlots;
    InFlightShape(v, id);
    OwnsNothing(v.slots, id);
    ShapeOf(v, REST, id);
    if ViewLive(v.slots, v.fibers[id]) {
      LiveSatisfiable(v, id);
    }
  }

  lemma OwnsNothing(bs: Slots, id: FiberId)
    requires forall k | k in bs :: bs[k].provider != id
    ensures Unbind(bs, id) == bs && ServeSlots(bs, id) == bs
  {}

  // ---------------------------------------------------------------------------------------------
  // Reliance and the guard

  lemma {:induction false} ChainStamps(w: World, cx: Cascade, path: seq<FiberId>)
    requires Sound(w, cx) && Chain(w.fibers, path) && |path| > 1
    ensures path[0] in w.stamps && path[|path| - 1] in w.stamps && w.stamps[path[0]] < w.stamps[path[|path| - 1]]
    decreases |path|
  {
    hide Sound, Relies;
    StampsDescend(w, cx, path[|path| - 1], path[|path| - 2]);
    if |path| > 2 {
      ChainStamps(w, cx, path[..|path| - 1]);
    }
  }

  /** No fiber relies on itself, through however many others, at any point of a cascade. */
  lemma RelianceIsAcyclic(w: World, cx: Cascade, path: seq<FiberId>)
    requires Sound(w, cx) && Chain(w.fibers, path) && |path| > 1
    ensures path[0] != path[|path| - 1]
  {
    ChainStamps(w, cx, path);
  }

  /** At any point of a cascade a withdrawing fiber's guard is the number of fibers holding it, and
      it is zero exactly when no published fiber relies on it and no edge to it is owed. */
  lemma GuardIsReliance(w: World, cx: Cascade, p: FiberId)
    requires Sound(w, cx) && p in w.fibers && w.fibers[p].activation == Unloading
    ensures w.fibers[p].remaining == |Reliers(w.fibers, p) + Owed(cx.pending, p)|
    ensures w.fibers[p].remaining == 0 <==>
      (forall c | c in w.fibers :: !Relies(w.fibers[c], p)) && (forall e | e in cx.pending :: e.1 != p)
  {
    var fs := w.fibers;
    assert fs[p].consumers == Reliers(fs, p) + Owed(cx.pending, p);
    NobodyHolds(fs, cx.pending, p);
    if fs[p].remaining == 0 {
      NoReliers(fs, cx.pending, p);
    }
  }

  lemma NobodyHolds(fs: Pool, pending: set<(FiberId, FiberId)>, p: FiberId)
    ensures (forall c | c in fs :: !Relies(fs[c], p)) && (forall e | e in pending :: e.1 != p) ==>
      |Reliers(fs, p) + Owed(pending, p)| == 0
  {
    var who := Reliers(fs, p) + Owed(pending, p);
    assert (forall c | c in fs :: !Relies(fs[c], p)) && (forall e | e in pending :: e.1 != p) ==> who == {};
  }

  // ---------------------------------------------------------------------------------------------
  // Ordered withdrawal over whole runs

  /** Until something happens to `c`, it holds the view it published. */
  lemma {:induction false} StillHeld(log: seq<Event>, j: nat, i: nat)
    requires j < i <= |log| && log[j].PublishedView?
    requires forall k | j < k < i :: log[k].id != log[j].id
    ensures log[j].id in Held(log[..i]) && Held(log[..i])[log[j].id] == log[j].view
    decreases i - j
  {
    assert log[..i][..i - 1] == log[..i - 1];
    if i > j + 1 {
      StillHeld(log, j, i - 1);
    }
  }

  /** In every log the engine writes: if a fiber published a view naming `p` and `p` is torn down
      later, that fiber was torn down in between. */
  lemma ProvidersWithdrawLast(log: seq<Event>, fs: Pool, j: nat, i: nat)
    requires LogOk(log, fs) && j < i < |log|
    requires log[j].PublishedView? && log[i].TornDown? && log[i].id in log[j].view.Values
    requires log[i].id != log[j].id
    ensures exists k :: j < k < i && log[k] == TornDown(log[j].id)
  {
    StillNamed(log, j, i);
    if exists k :: j < k < i && log[k].id == log[j].id {
      FirstEventIsTeardown(log, j, i);
    }
  }

  lemma StillNamed(log: seq<Event>, j: nat, i: nat)
    requires j < i <= |log| && log[j].PublishedView?
    ensures (forall k | j < k < i :: log[k].id != log[j].id) ==>
      forall p | p in log[j].view.Values :: Named(Held(log[..i]), p)
  {
    if forall k | j < k < i :: log[k].id != log[j].id {
      StillHeld(log, j, i);
    }
  }

  lemma {:induction false} FirstEventIsTeardown(log: seq<Event>, j: nat, i: nat)
    requires Ordered(log) && j < i <= |log| && log[j].PublishedView?
    requires exists k :: j < k < i && log[k].id == log[j].id
    ensures exists k :: j < k < i && log[k] == TornDown(log[j].id)
    decreases i - j
  {
    var k :| j < k < i && log[k].id == log[j].id;
    if m :| j < m < k && log[m].id == log[j].id {
      FirstEventIsTeardown(log, j, k);
    } else {
      StillHeld(log, j, k);
      assert Legal(Held(log[..k]), log[k]);
    }
  }

  // ---------------------------------------------------------------------------------------------
  // validate_invariants

  /** The assertions of the engine's runtime self-check. */
  ghost predicate SelfCheck(w: World) {
    && (forall x | x in w.fibers :: FiberCheck(w.fibers, x))
    && Indexed(w)
  }

  ghost predicate FiberCheck(fs: Pool, id: FiberId)
    requires id in fs
  {
    var f := fs[id];
    if f.state == Inactive then
      f.committed == map[] && f.remaining == 0 && f.activation == Inactive
    else
      && (forall k | k in f.committed :: k in f.spec.Keys())
      && ViewInstalled(fs, f)
      && ConsumersCheck(fs, id)
  }

  ghost predicate ViewInstalled(fs: Pool, f: Fiber) {
    forall k | k in f.committed :: f.committed[k] in fs && fs[f.committed[k]].state != Inactive
  }

  ghost predicate ConsumersCheck(fs: Pool, id: FiberId)
    requires id in fs
  {
    && (forall c | c in fs[id].consumers :: c in fs && id in fs[c].committed.Values)
    && fs[id].remaining == if fs[id].state == Unloading then |UpConsumers(fs, id)| else 0
  }

  function UpConsumers(fs: Pool, id: FiberId): set<FiberId>
    requires id in fs
  {
    set c | c in fs[id].consumers && c in fs && fs[c].state != Inactive
  }

  lemma ConsumersChecked(w: World, id: FiberId)
    requires AtRest(w) && id in w.fibers
    ensures ConsumersCheck(w.fibers, id)
  {
    var fs := w.fibers;
    assert Shape(id, fs[id]) && id !in Withdrawing(fs);
    assert fs[id].consumers == Reliers(fs, id) + Owed({}, id);
    if fs[id].state == Unloading {
      assert Reliers(fs, id) == {} by {
        NobodyReliesYet(fs, w.slots, id);
      }
      assert UpConsumers(fs, id) == {};
    }
  }

  lemma PublishedInstalled(w: World, x: FiberId)
    requires AtRest(w) && x in w.fibers && Published(w.fibers[x])
    ensures ViewInstalled(w.fibers, w.fibers[x])
  {
    forall k | k in w.fibers[x].committed
      ensures w.fibers[x].committed[k] in w.fibers && w.fibers[w.fibers[x].committed[k]].state != Inactive
    {
      assert HeldKey(w.fibers, w.slots, w.fibers[x].committed[k], k);
      assert Shape(w.fibers[x].committed[k], w.fibers[w.fibers[x].committed[k]]);
    }
  }

  /** Between handlers the self-check passes exactly when every provider committed to by a fiber in
      motion is still installed and up: a load whose provider was retired meanwhile trips it, though
      the engine handles such a load correctly when its apply returns. */
  lemma SelfCheckPasses(w: World)
    requires AtRest(w)
    ensures SelfCheck(w) <==> forall x | x in w.fibers && InMotion(w.fibers[x]) :: ViewInstalled(w.fibers, w.fibers[x])
  {
    if forall x | x in w.fibers && InMotion(w.fibers[x]) :: ViewInstalled(w.fibers, w.fibers[x]) {
      forall x | x in w.fibers ensures FiberCheck(w.fibers, x) {
        assert Shape(x, w.fibers[x]);
        ConsumersChecked(w, x);
        if w.fibers[x].state == Active {
          PublishedInstalled(w, x);
        }
      }
    }
    if SelfCheck(w) {
      forall x | x in w.fibers && InMotion(w.fibers[x]) ensures ViewInstalled(w.fibers, w.fibers[x]) {
        assert FiberCheck(w.fibers, x);
      }
    }
  }

  function Sink(k: ServiceId): Component {
    Component([Dependency(k, true)], {})
  }

  /** A run after which the check fails: the provider is retired while its consumer's apply is out. */
  method LoadOutlivesItsProvider(k: ServiceId) returns (r: Runtime)
    ensures fresh(r) && r.Valid() && !SelfCheck(r.Now())
  {
    hide Sound, Withdrawing, Reevaluated, Leads, Spared, Calm, Publishes, AfterPublish, SelfCheck, Dependents, Source, Sink;
    r := new Runtime();
    SourceFits(k, r.fibers);
    var p := r.Mount(Source(k));
    SourceLoads(r.slots, p, k, r.fibers[p]);
    var declared := r.Provide(p, k, true);
    ghost var v := r.Now();
    SourcePublishes(v, p, k);
    r.ApplyCompleted(p, false);
    SourceServes(v, r.Now(), p, k);
    SinkFits(k, r.fibers);
    var c := r.Mount(Sink(k));
    SinkLoads(r.Now(), p, c, k);
    ghost var w := r.Now();
    DependentsClosed(w.fibers, p);
    r.Retire(p);
    SourceGone(w, r.Now(), p, c, k);
  }

  lemma SourceFits(k: ServiceId, fs: Pool)
    requires fs == map[]
    ensures Admissible(Source(k)) && forall p | p in fs :: fs[p].spec.provide !! Source(k).provide
  {
    assert Source(k).Keys() == {} == Source(k).RequiredKeys();
  }

  lemma SinkFits(k: ServiceId, fs: Pool)
    ensures Admissible(Sink(k)) && forall p | p in fs :: fs[p].spec.provide !! Sink(k).provide
  {}

  lemma SourceLoads(bs: Slots, p: FiberId, k: ServiceId, f: Fiber)
    requires Reevaluated(bs, p, Fresh(Source(k)), f)
    ensures f.spec == Source(k) && k in f.spec.provide && f.state == Loading && f.activation == Loading
  {
    assert Satisfiable(bs, p, Source(k));
  }

  lemma SourcePublishes(v: World, p: FiberId, k: ServiceId)
    requires AtRest(v) && p in v.fibers && v.fibers[p].spec == Source(k) && v.fibers[p].state == Loading
    ensures Publishes(v, p, false) && InMotion(v.fibers[p])
  {
    assert Shape(p, v.fibers[p]) && Source(k).Keys() == {};
  }

  lemma ActiveNow(w: World, id: FiberId)
    requires id in w.fibers
    ensures id in PublishedPool(w.fibers, id)
    ensures PublishedPool(w.fibers, id)[id] == w.fibers[id].(state := Active, activation := Active)
  {}

  lemma SourceServes(v: World, w: World, p: FiberId, k: ServiceId)
    requires p in v.fibers && v.fibers[p].spec == Source(k) && k in v.slots && v.slots[k] == Binding(p, Landing, true)
    requires Sound(w, REST) && Leads(AfterPublish(v, p), w) && p in w.fibers && w.fibers[p].activation == Active
    ensures w.fibers[p].spec == Source(k) && w.fibers[p].state == Active && k in w.slots && w.slots[k] == Binding(p, Serving, true)
  {
    hide Satisfiable, ViewLive, Edges, Hold, Counters, Stamped, Waiting, Doomed, Heeded, Disciplined, LogOk, Indexed, Bounded, PublishedPool;
    ActiveNow(v, p);
    var u := AfterPublish(v, p);
    assert Moves(p, u.fibers[p], w.fibers[p], u.slots, w.slots) && Shape(p, w.fibers[p]);
  }

  lemma SinkLoads(w: World, p: FiberId, c: FiberId, k: ServiceId)
    requires c in w.fibers && c != p && k in w.slots && w.slots[k] == Binding(p, Serving, true)
    requires Reevaluated(w.slots, c, Fresh(Sink(k)), w.fibers[c])
    ensures w.fibers[c].state == Loading && w.fibers[c].activation == Loading && k in w.fibers[c].committed && w.fibers[c].committed[k] == p
  {
    assert Sink(k).inject[0].key == k;
    assert Satisfiable(w.slots, c, Sink(k)) && k in Resolution(w.slots, c, Sink(k));
  }

  lemma SourceGone(v: World, w: World, p: FiberId, c: FiberId, k: ServiceId)
    requires p in v.fibers && v.fibers[p].spec == Source(k) && v.fibers[p].state == Active && v.fibers[p].activation == Active
    requires c in v.fibers && c != p && v.fibers[c].state == Loading && v.fibers[c].activation == Loading
    requires k in v.fibers[c].committed && v.fibers[c].committed[k] == p
    requires Leads(v.(fibers := v.fibers[p := Retired(v.fibers[p])]), w) && p in w.fibers && !Published(w.fibers[p])
    ensures !SelfCheck(w)
  {
    hide Satisfiable, ViewLive;
    var u := v.(fibers := v.fibers[p := Retired(v.fibers[p])]);
    assert Moves(p, u.fibers[p], w.fibers[p], u.slots, w.slots) && Moves(c, u.fibers[c], w.fibers[c], u.slots, w.slots);
    assert Source(k).Keys() == {} == Source(k).RequiredKeys();
    assert !FiberCheck(w.fibers, c);
  }

  function Leaf(k: ServiceId): Component {
    Component([Dependency(k, false)], {})
  }

  /**
    A run that leaves a consumer without a dependency that is there: the provider is published while
    the consumer's apply is out, so nothing evaluates the consumer when it lands.
   */
  method LeafMissesItsProvider(k: ServiceId) returns (r: Runtime, c: FiberId)
    ensures fresh(r) && r.Valid() && Moving(r.fibers) == {} && c in r.fibers
    ensures r.fibers[c].spec == Leaf(k) && r.fibers[c].state == Active && r.fibers[c].reactivate >= 0 && !r.fibers[c].applyFailed
    ensures r.fibers[c].committed == map[] && Resolves(r.slots, c, k)
    ensures c in Astray(r.Now()) && !OnTarget(r.slots, c, r.fibers[c])
  {
    hide Sound, Withdrawing, Leads, Publishes, AfterPublish, OnTarget, Astray, Shape, Completes, Moving, Resolves;
    var p;
    r, p, c := LeafAndSource(k);
    ghost var v := r.Now();
    SourcePublishes(v, p, k);
    r.ApplyCompleted(p, false);
    SourcePublished(v, r.Now(), p, k);
    LeafWaits(v, r.Now(), p, c, k);
    ghost var w := r.Now();
    r.ApplyCompleted(c, false);
    LeafMisses(w, r.Now(), p, c, k);
  }

  /** Both are loading, and the source has provided its key. */
  method LeafAndSource(k: ServiceId) returns (r: Runtime, p: FiberId, c: FiberId)
    ensures fresh(r) && r.Valid() && r.fibers.Keys == {p, c} && p != c
    ensures r.fibers[p].spec == Source(k) && r.fibers[p].state == Loading && r.fibers[c] == Started(Fresh(Leaf(k)), map[])
    ensures k in r.slots && r.slots[k] == Binding(p, Landing, true)
  {
    hide Sound, Withdrawing, Reevaluated, Leads, Spared, Astray;
    r := new Runtime();
    SourceFits(k, r.fibers);
    p := r.Mount(Source(k));
    SourceLoads(r.slots, p, k, r.fibers[p]);
    LeafFits(k, r.fibers);
    c := r.Mount(Leaf(k));
    LeafLoads(r.slots, c, k, r.fibers[c]);
    var declared := r.Provide(p, k, true);
  }

  lemma LeafFits(k: ServiceId, fs: Pool)
    ensures Admissible(Leaf(k)) && forall p | p in fs :: fs[p].spec.provide !! Leaf(k).provide
  {
    assert Leaf(k).RequiredKeys() == {};
  }

  lemma LeafLoads(bs: Slots, c: FiberId, k: ServiceId, f: Fiber)
    requires bs == map[] && Reevaluated(bs, c, Fresh(Leaf(k)), f)
    ensures f == Started(Fresh(Leaf(k)), map[])
  {
    assert Leaf(k).RequiredKeys() == {} && Satisfiable(bs, c, Leaf(k)) && Resolution(bs, c, Leaf(k)) == map[];
  }

  lemma SourcePublished(v: World, w: World, p: FiberId, k: ServiceId)
    requires p in v.fibers && v.fibers[p].spec == Source(k) && k in v.slots && v.slots[k] == Binding(p, Landing, true)
    requires Publishes(v, p, false) && Completes(v, w, p, false) && AtRest(w)
    ensures w.fibers.Keys == v.fibers.Keys && Leads(AfterPublish(v, p), w)
    ensures w.fibers[p].spec == Source(k) && w.fibers[p].state == Active && k in w.slots && w.slots[k] == Binding(p, Serving, true)
  {
    hide Sound, Leads, Publishes, AfterPublish;
    SourceServes(v, w, p, k);
    SameMembers(AfterPublish(v, p), w);
    PublishedMembers(v, p);
  }

  lemma LeafWaits(v: World, w: World, p: FiberId, c: FiberId, k: ServiceId)
    requires p in v.fibers && c in v.fibers && c in w.fibers && c != p && v.fibers[c] == Started(Fresh(Leaf(k)), map[])
    requires Leads(AfterPublish(v, p), w)
    ensures w.fibers[c].spec == Leaf(k) && w.fibers[c].state == Loading && w.fibers[c].activation == Loading
    ensures w.fibers[c].committed == map[] && w.fibers[c].reactivate != -1 && !w.fibers[c].applyFailed
  {
    hide Satisfiable, ViewLive;
    var u := AfterPublish(v, p);
    assert Moves(c, u.fibers[c], w.fibers[c], u.slots, w.slots);
  }

  lemma LeafMisses(v: World, w: World, p: FiberId, c: FiberId, k: ServiceId)
    requires AtRest(v) && AtRest(w) && c in v.fibers && c != p && v.fibers.Keys == {p, c} && p in v.fibers && v.fibers[p].state == Active
    requires v.fibers[c].spec == Leaf(k) && v.fibers[c].state == Loading && v.fibers[c].activation == Loading
    requires v.fibers[c].committed == map[] && v.fibers[c].reactivate != -1 && !v.fibers[c].applyFailed
    requires k in v.slots && v.slots[k] == Binding(p, Serving, true) && Completes(v, w, c, false)
    ensures w.fibers.Keys == {p, c} && Moving(w.fibers) == {} && w.fibers[c].spec == Leaf(k) && w.fibers[c].state == Active
    ensures w.fibers[c].committed == map[] && w.fibers[c].reactivate >= 0 && !w.fibers[c].applyFailed && Resolves(w.slots, c, k)
    ensures c in Astray(w) && !OnTarget(w.slots, c, w.fibers[c])
  {
    hide Sound, Withdrawing;
    assert w == AfterPublish(v, c);
    ActiveNow(v, c);
    assert Leaf(k).inject[0].key == k && k in Leaf(k).Keys();
    assert k in Resolution(w.slots, c, Leaf(k));
    ShapeOf(w, REST, c);
    SettledOnTarget(w, c);
  }

  // ---------------------------------------------------------------------------------------------
  // Quiescence

  /** How far a fiber is from rest; a stale load is further than a fresh one. */
  function Distance(w: World, x: FiberId): (d: nat)
    requires x in w.fibers
    ensures d <= 4
  {
    DistanceOf(w.fibers[x], ViewLive(w.slots, w.fibers[x]))
  }

  function DistanceOf(f: Fiber, live: bool): (d: nat)
    ensures d <= 4
  {
    if f.reactivate < 0 then (if InMotion(f) then 1 else 0)
    else if f.state == Loading then (if live then 2 else 4)
    else if f.state == Unloading then 4
    else if f.state == Inactive && !f.applyFailed then 3
    else 0
  }

  function Needy(fs: Pool): set<FiberId> {
    set x | x in fs && fs[x].spec.RequiredOnly()
  }

  function Distances(w: World): map<FiberId, nat> {
    map x | x in w.fibers :: Distance(w, x)
  }

  /** Fibers with optional dependencies may be reloaded whenever one of the others publishes, so the
      others weigh more than all of them together. */
  ghost function Potential(w: World): nat {
    Weight(Distances(w), Needy(w.fibers), w.fibers.Keys - Needy(w.fibers))
  }

  ghost function Weight(d: map<FiberId, nat>, needy: set<FiberId>, loose: set<FiberId>): nat
    requires needy <= d.Keys && loose <= d.Keys
  {
    Sum(needy, d) * (4 * |loose| + 1) + Sum(loose, d)
  }

  lemma Outweighs(a: nat, b: nat, n: nat, c: nat, d: nat)
    requires a < b && c <= 4 * n
    ensures a * (4 * n + 1) + c < b * (4 * n + 1) + d
  {
    var m := 4 * n + 1;
    assert (a + 1) * m <= b * m;
  }

  lemma Undercuts(a: nat, b: nat, n: nat, c: nat, d: nat)
    requires a <= b && c < d
    ensures a * (4 * n + 1) + c < b * (4 * n + 1) + d
  {
    var m := 4 * n + 1;
    assert a * m <= b * m;
  }

  lemma NeedyDrops(d: map<FiberId, nat>, e: map<FiberId, nat>, needy: set<FiberId>, loose: set<FiberId>, id: FiberId)
    requires needy + loose <= d.Keys && needy + loose <= e.Keys
    requires forall x | x in loose :: d[x] <= 4
    requires forall x | x in needy :: d[x] <= e[x]
    requires id in needy && d[id] < e[id]
    ensures Weight(d, needy, loose) < Weight(e, needy, loose)
  {
    SumLess(needy, d, e, id);
    SumBound(loose, d);
    Outweighs(Sum(needy, d), Sum(needy, e), |loose|, Sum(loose, d), Sum(loose, e));
  }

  lemma LooseDrops(d: map<FiberId, nat>, e: map<FiberId, nat>, needy: set<FiberId>, loose: set<FiberId>, id: FiberId)
    requires needy + loose <= d.Keys && needy + loose <= e.Keys
    requires forall x | x in needy + loose :: d[x] <= e[x]
    requires id in loose && d[id] < e[id]
    ensures Weight(d, needy, loose) < Weight(e, needy, loose)
  {
    SumLe(needy, d, e);
    SumLess(loose, d, e, id);
    Undercuts(Sum(needy, d), Sum(needy, e), |loose|, Sum(loose, d), Sum(loose, e));
  }

  lemma PotentialDrops(v: World, w: World, id: FiberId)
    requires v.fibers.Keys == w.fibers.Keys && Needy(v.fibers) == Needy(w.fibers)
    requires id in v.fibers && Distance(w, id) < Distance(v, id)
    requires forall x | x in Needy(v.fibers) :: Distance(w, x) <= Distance(v, x)
    requires id !in Needy(v.fibers) ==> forall x | x in v.fibers :: Distance(w, x) <= Distance(v, x)
    ensures Potential(w) < Potential(v)
  {
    hide Distance, Weight;
    var needy := Needy(v.fibers);
    var loose := v.fibers.Keys - needy;
    if id in needy {
      NeedyDrops(Distances(w), Distances(v), needy, loose, id);
    } else {
      LooseDrops(Distances(w), Distances(v), needy, loose, id);
    }
  }

  /** A serving slot stays serving through a cascade that loses nobody who needs all its keys. */
  lemma ServingThrough(v: World, w: World, k: ServiceId)
    requires Disciplined(v.fibers) && SlotsOk(v.fibers, v.slots)
    requires AtRest(w) && Leads(v, w) && Spared(v, w, {}) && Withdrawing(v.fibers) == {}
    requires k in v.slots && v.slots[k].state == Serving
    ensures k in w.slots && w.slots[k].state == Serving
    ensures w.slots[k].provider == v.slots[k].provider && w.slots[k].available == v.slots[k].available
  {
    hide Edges, Hold, Counters, Stamped, Waiting, Doomed, Heeded, LogOk, Indexed, Bounded, Satisfiable, ViewLive, Shapes, Disciplined, Moves;
    var p := v.slots[k].provider;
    assert p in v.fibers && k in v.fibers[p].spec.provide && v.fibers[p].activation == Active;
    ProviderSpared(v, w, p);
    assert p !in Withdrawing(w.fibers);
    assert k in w.slots;
  }

  lemma ProviderSpared(v: World, w: World, p: FiberId)
    requires Disciplined(v.fibers) && Leads(v, w) && Spared(v, w, {})
    requires p in v.fibers && v.fibers[p].spec.provide != {} && v.fibers[p].activation == Active
    ensures p in w.fibers && Published(w.fibers[p])
  {
    hide Satisfiable, ViewLive, Shrinks, Moves;
    assert Admissible(v.fibers[p].spec);
  }

  /** A view live before a cascade is live after it, if nobody needy was lost. */
  lemma LiveThrough(v: World, w: World, f: Fiber)
    requires Disciplined(v.fibers) && SlotsOk(v.fibers, v.slots)
    requires AtRest(w) && Leads(v, w) && Spared(v, w, {}) && Withdrawing(v.fibers) == {}
    requires ViewLive(v.slots, f)
    ensures ViewLive(w.slots, f)
  {
    hide Disciplined, SlotsOk, AtRest, Leads, Spared, Withdrawing;
    forall k | k in f.committed
      ensures k in w.slots && w.slots[k].provider == f.committed[k] && w.slots[k].state == Serving && w.slots[k].available
    {
      ServingThrough(v, w, k);
    }
  }

  lemma ServeSame(bs: Slots, id: FiberId, f: Fiber)
    requires forall k | k in bs && bs[k].provider == id :: bs[k].state == Landing
    requires ViewLive(bs, f)
    ensures ViewLive(ServeSlots(bs, id), f)
  {}

  /** A completion that publishes brings the engine closer to rest. */
  lemma PublishProgress(v: World, w: World, id: FiberId)
    requires AtRest(v) && AtRest(w) && id in v.fibers && Publishes(v, id, false)
    requires Leads(AfterPublish(v, id), w) && Spared(AfterPublish(v, id), w, {})
    requires v.fibers[id].spec.provide == {} ==> w == AfterPublish(v, id)
    ensures Potential(w) < Potential(v)
  {
    var w1 := AfterPublish(v, id);
    PublishFacts(v, id);
    forall x | x in v.fibers && (x in Needy(v.fibers) || v.fibers[id].spec.provide == {})
      ensures x in w.fibers && Distance(w, x) <= Distance(v, x)
    {
      PublishDistance(v, w1, w, id, x);
    }
    PublisherArrives(v, w1, w, id);
    SameNeedy(v, w1, w, id);
    PotentialDrops(v, w, id);
  }

  lemma PublishFacts(v: World, id: FiberId)
    requires AtRest(v) && id in v.fibers && Publishes(v, id, false)
    ensures Disciplined(AfterPublish(v, id).fibers)
    ensures SlotsOk(AfterPublish(v, id).fibers, AfterPublish(v, id).slots)
    ensures Withdrawing(AfterPublish(v, id).fibers) == {}
    ensures forall k | k in v.slots && v.slots[k].provider == id :: v.slots[k].state == Landing
    ensures v.fibers[id].spec.provide == {} ==> AfterPublish(v, id).slots == v.slots
    ensures v.fibers[id].spec.RequiredOnly() || v.fibers[id].spec.provide == {}
  {
    hide Disciplined, SlotsOk, Withdrawing, Edges, Hold, Counters, Stamped, Waiting, Doomed, Heeded, Shapes, LogOk, Indexed, Bounded,
         ServeSlots, PublishedPool, ViewLive;
    PublishStep(v, id, {});
    InFlightShape(v, id);
    PublisherSpec(v.fibers, id);
    NothingServed(v, id);
  }

  lemma PublisherSpec(fs: Pool, id: FiberId)
    requires Disciplined(fs) && id in fs
    ensures fs[id].spec.RequiredOnly() || fs[id].spec.provide == {}
  {
    assert Admissible(fs[id].spec);
  }

  lemma NothingServed(v: World, id: FiberId)
    requires id in v.fibers
    requires forall k | k in v.slots && v.slots[k].provider == id :: k in v.fibers[id].spec.provide
    ensures v.fibers[id].spec.provide == {} ==> ServeSlots(v.slots, id) == v.slots
  {}

  lemma SameNeedy(v: World, w1: World, w: World, id: FiberId)
    requires id in v.fibers && w1 == AfterPublish(v, id) && Leads(w1, w)
    ensures w.fibers.Keys == v.fibers.Keys && Needy(w.fibers) == Needy(v.fibers)
  {
    hide Leads, Component.RequiredOnly, ServeSlots;
    SameMembers(w1, w);
    forall x | x in w.fibers ensures w.fibers[x].spec == v.fibers[x].spec {
      SpecThrough(w1, w, x);
    }
    NeedySame(v.fibers, w.fibers);
  }

  lemma SpecThrough(v: World, w: World, x: FiberId)
    requires Leads(v, w) && x in v.fibers && x in w.fibers
    ensures w.fibers[x].spec == v.fibers[x].spec
  {
    hide Satisfiable, ViewLive, Shrinks, Kept;
    assert Moves(x, v.fibers[x], w.fibers[x], v.slots, w.slots);
  }

  lemma NeedySame(fs: Pool, gs: Pool)
    requires gs.Keys == fs.Keys && forall x | x in gs :: gs[x].spec == fs[x].spec
    ensures Needy(gs) == Needy(fs)
  {}

  lemma PublisherArrives(v: World, w1: World, w: World, id: FiberId)
    requires AtRest(v) && AtRest(w) && id in v.fibers && Publishes(v, id, false) && w1 == AfterPublish(v, id)
    requires Leads(w1, w) && Spared(w1, w, {}) && Withdrawing(w1.fibers) == {}
    requires v.fibers[id].spec.provide == {} ==> w == w1
    requires v.fibers[id].spec.RequiredOnly() || v.fibers[id].spec.provide == {}
    ensures id in w.fibers && Distance(w, id) < Distance(v, id)
  {
    hide Inv, LogOk, Indexed, Bounded;
    ShapeOf(w, REST, id);
    ShapeOf(v, REST, id);
    assert Moves(id, w1.fibers[id], w.fibers[id], w1.slots, w.slots);
    assert id !in Withdrawing(w.fibers);
  }

  lemma PublishDistance(v: World, w1: World, w: World, id: FiberId, x: FiberId)
    requires AtRest(v) && AtRest(w) && id in v.fibers && Publishes(v, id, false) && w1 == AfterPublish(v, id)
    requires Leads(w1, w) && Spared(w1, w, {}) && Withdrawing(w1.fibers) == {}
    requires Disciplined(w1.fibers) && SlotsOk(w1.fibers, w1.slots)
    requires forall k | k in v.slots && v.slots[k].provider == id :: v.slots[k].state == Landing
    requires v.fibers[id].spec.provide == {} ==> w == w1
    requires v.fibers[id].spec.RequiredOnly() || v.fibers[id].spec.provide == {}
    requires x in v.fibers && (v.fibers[x].spec.RequiredOnly() || v.fibers[id].spec.provide == {})
    ensures x in w.fibers && Distance(w, x) <= Distance(v, x)
  {
    hide Inv, LogOk, Indexed, Bounded, Satisfiable, ViewLive, ServeSlots, Shrinks, Kept, Disciplined, SlotsOk, DistanceOf, Moves, Shape, Spared;
    ShapeOf(w, REST, x);
    ShapeOf(v, REST, x);
    SameMembers(w1, w);
    assert Moves(x, w1.fibers[x], w.fibers[x], w1.slots, w.slots);
    if x != id {
      assert x !in Withdrawing(w.fibers) && x !in Withdrawing(v.fibers);
      if ViewLive(v.slots, v.fibers[x]) {
        ServeSame(v.slots, id, v.fibers[x]);
        LiveThrough(w1, w, v.fibers[x]);
        SameView(w.slots, v.fibers[x], w.fibers[x]);
      }
      if ViewLive(w1.slots, w.fibers[x]) {
        LiveThrough(w1, w, w.fibers[x]);
      }
      PublishedLater(v, w1, w, id, x);
      DistanceMoves(x, v.fibers[x], w1.fibers[x], w.fibers[x], v.slots, w1.slots, w.slots);
    } else {
      PublisherArrives(v, w1, w, id);
    }
  }

  /** Who was published stays so, when nothing cascades or it needs all its keys. */
  lemma PublishedLater(v: World, w1: World, w: World, id: FiberId, x: FiberId)
    requires id in v.fibers && w1 == AfterPublish(v, id) && Spared(w1, w, {}) && x in v.fibers && x in w.fibers && x != id
    requires v.fibers[id].spec.provide == {} ==> w == w1
    requires v.fibers[x].spec.RequiredOnly() || v.fibers[id].spec.provide == {}
    requires v.fibers[x].activation != Unloading
    ensures Published(v.fibers[x]) ==> Published(w.fibers[x])
    ensures w1.fibers[x] == v.fibers[x].(consumers := w1.fibers[x].consumers)
  {
    hide ServeSlots;
  }

  lemma DistanceMoves(x: FiberId, a: Fiber, b: Fiber, c: Fiber, bs0: Slots, bs: Slots, bs2: Slots)
    requires Shape(x, a) && Shape(x, c) && Moves(x, b, c, bs, bs2) && b == a.(consumers := b.consumers)
    requires a.activation != Unloading && c.activation != Unloading
    requires Published(a) ==> Published(c)
    requires ViewLive(bs0, a) && a.committed == c.committed ==> ViewLive(bs2, c)
    requires ViewLive(bs, c) ==> ViewLive(bs2, c)
    ensures DistanceOf(c, ViewLive(bs2, c)) <= DistanceOf(a, ViewLive(bs0, a))
  {
    hide ViewLive, Satisfiable;
  }

  lemma SameView(bs: Slots, f: Fiber, g: Fiber)
    ensures f.committed == g.committed ==> (ViewLive(bs, f) <==> ViewLive(bs, g))
  {}

  /** A completion that does not publish brings the engine closer to rest as well. */
  lemma LandProgress(v: World, w: World, id: FiberId, raised: bool)
    requires AtRest(v) && AtRest(w) && id in v.fibers && InMotion(v.fibers[id]) && !Publishes(v, id, raised)
    requires id in w.fibers && w == v.(fibers := v.fibers[id := w.fibers[id]], slots := Unbind(v.slots, id))
    requires
      var g := Landed(v.fibers[id], raised);
      if !ViewLive(v.slots, v.fibers[id]) && g.reactivate >= 0 then Reevaluated(w.slots, id, g, w.fibers[id]) else w.fibers[id] == g
    ensures Potential(w) < Potential(v)
  {
    hide Inv, LogOk, Indexed, Bounded, Withdrawing, ViewLive, Satisfiable, Resolution, DistanceOf, Potential, Unbind, Component.RequiredOnly;
    InFlightShape(v, id);
    forall x | x in v.fibers && x != id ensures Distance(w, x) == Distance(v, x) {
      UnbindSame(v.slots, id, v.fibers[x]);
    }
    StartedLive(w.slots, id, Landed(v.fibers[id], raised));
    LandedNearer(v.slots, w.slots, id, v.fibers[id], w.fibers[id], raised);
    assert Distance(w, id) < Distance(v, id);
    LandedSpec(w.slots, v.fibers[id], w.fibers[id], id, raised);
    NeedySame(v.fibers, w.fibers);
    PotentialDrops(v, w, id);
  }

  lemma LandedSpec(bs: Slots, f: Fiber, h: Fiber, id: FiberId, raised: bool)
    requires Reevaluated(bs, id, Landed(f, raised), h) || h == Landed(f, raised)
    ensures h.spec == f.spec
  {}

  /** A landing that publishes nothing leaves its fiber nearer to rest. */
  lemma LandedNearer(bs: Slots, bs2: Slots, id: FiberId, f: Fiber, h: Fiber, raised: bool)
    requires InMotion(f) && f.error == None && !f.applyFailed
    requires raised || f.state == Unloading || !ViewLive(bs, f)
    requires ViewLive(bs2, Started(Landed(f, raised), Resolution(bs2, id, f.spec)))
    requires if !ViewLive(bs, f) && f.reactivate >= 0 then Reevaluated(bs2, id, Landed(f, raised), h) else h == Landed(f, raised)
    ensures DistanceOf(h, ViewLive(bs2, h)) < DistanceOf(f, ViewLive(bs, f))
  {
    hide ViewLive, Satisfiable, Resolution;
  }

  lemma UnbindSame(bs: Slots, id: FiberId, f: Fiber)
    requires forall k | k in bs && bs[k].provider == id :: bs[k].state == Landing
    ensures ViewLive(Unbind(bs, id), f) <==> ViewLive(bs, f)
  {}

  lemma StartedLive(bs: Slots, id: FiberId, g: Fiber)
    ensures ViewLive(bs, Started(g, Resolution(bs, id, g.spec)))
  {}

  /** The slots a loading fiber may fill are not served to anybody. */
  lemma OwnSlot(v: World, id: FiberId, k: ServiceId)
    requires AtRest(v) && id in v.fibers && v.fibers[id].activation == Loading && k in v.fibers[id].spec.provide
    ensures k in v.slots ==> v.slots[k].state == Landing
  {
    hide Edges, Counters, Stamped, Waiting, Doomed, Heeded, LogOk, Indexed, Bounded, Shapes, Hold, Withdrawing, Admissible;
    if k in v.slots {
      var p := v.slots[k].provider;
      assert p in v.fibers && k in v.fibers[p].spec.provide;
      assert p == id;
    }
  }

  lemma LandingUnseen(bs: Slots, k: ServiceId, b: Binding, f: Fiber)
    requires b.state == Landing && (k in bs ==> bs[k].state == Landing)
    ensures ViewLive(bs[k := b], f) <==> ViewLive(bs, f)
  {
    if ViewLive(bs[k := b], f) {
      forall j | j in f.committed ensures j != k && j in bs {
        assert j in bs[k := b];
      }
    }
  }

  /** A plugin's provision while it loads changes nobody's distance. */
  lemma ProvideSame(v: World, w: World, id: FiberId, k: ServiceId, b: Binding)
    requires AtRest(v) && id in v.fibers && v.fibers[id].activation == Loading && k in v.fibers[id].spec.provide
    requires b.state == Landing && w == v.(slots := v.slots[k := b])
    ensures Potential(w) == Potential(v)
  {
    hide AtRest, ViewLive, Potential;
    OwnSlot(v, id, k);
    forall x | x in v.fibers ensures Distance(w, x) == Distance(v, x) {
      LandingUnseen(v.slots, k, b, v.fibers[x]);
    }
    SameDistances(v, w);
  }

  lemma SameDistances(v: World, w: World)
    requires v.fibers == w.fibers && forall x | x in v.fibers :: Distance(w, x) == Distance(v, x)
    ensures Potential(w) == Potential(v)
  {
    hide Distance, Weight;
    assert Distances(w) == Distances(v);
  }
}
