/** The engine's states as states of the frame machine, and what its steps are there. */
module EngineImage {
  import opened Basics
  import opened Fibers
  import opened FiberSteps
  import opened Cascades
  import opened Handlers
  import F = Frames
  import O = Oracle

  /** The engine with the applies spawned on its strand, in order, and the marks they have left. */
  datatype Sight = Sight(world: World, queue: seq<FiberId>, marks: seq<F.Mark>)

  function BodyOf(f: Fiber): F.Body {
    F.Body(f.spec, f.state, f.applyFailed, f.error != None, f.reactivate, f.committed, f.consumers, f.remaining)
  }

  /** A slot counts as bound once its fiber has published. */
  function BondsOf(bs: Slots): O.Bonds {
    map k | k in bs && bs[k].state != Landing :: O.Bond(bs[k].provider, bs[k].state == Retiring)
  }

  function Bodies(fs: Pool): map<FiberId, F.Body> {
    map x | x in fs :: BodyOf(fs[x])
  }

  function ImageOf(s: Sight): F.Snap {
    F.Snap(Bodies(s.world.fibers), BondsOf(s.world.slots), s.queue, s.marks)
  }

  ghost predicate Available(bs: Slots) {
    forall k | k in bs :: bs[k].available
  }

  ghost predicate Explained(fs: Pool) {
    forall x | x in fs && fs[x].applyFailed :: fs[x].error != None
  }

  predicate Distinct(queue: seq<FiberId>) {
    forall i, j | 0 <= i < j < |queue| :: queue[i] != queue[j]
  }

  /** The queue holds exactly the fibers whose apply is out, once each. */
  ghost predicate Spawned(fs: Pool, queue: seq<FiberId>) {
    Distinct(queue) && forall x :: x in queue <==> x in fs && fs[x].activation == Loading
  }

  /** What the comparison with the reference machine asks of a state: nothing waits for a promotion. */
  ghost predicate Faithful(s: Sight) {
    Available(s.world.slots) && Explained(s.world.fibers) && Spawned(s.world.fibers, s.queue)
  }

  /** Having `todo` to do comes to having `rest` to do, and the state stays comparable. */
  ghost predicate Tracks(s: Sight, todo: F.Todo, t: Sight, rest: F.Todo) {
    Faithful(s) ==> Faithful(t) && F.Comes(ImageOf(s), todo, ImageOf(t), rest)
  }

  // ---------------------------------------------------------------------------------------------
  // Runs

  lemma TracksRefl(s: Sight, todo: F.Todo)
    ensures Tracks(s, todo, s, todo)
  {
    hide F.Runs;
  }

  lemma TracksTrans(s: Sight, a: F.Todo, t: Sight, b: F.Todo, u: Sight, c: F.Todo)
    requires Tracks(s, a, t, b) && Tracks(t, b, u, c)
    ensures Tracks(s, a, u, c)
  {
    hide F.Comes, Faithful, ImageOf;
    if Faithful(s) {
      F.ComesTrans(ImageOf(s), a, ImageOf(t), b, ImageOf(u), c);
    }
  }

  lemma TracksBoth(s: Sight, a: F.Todo, t: Sight, b: F.Todo, u: Sight)
    requires Tracks(s, a, t, []) && Tracks(t, b, u, [])
    ensures Tracks(s, a + b, u, [])
  {
    hide F.Comes, Faithful, ImageOf;
    if Faithful(s) {
      F.Both(ImageOf(s), a, ImageOf(t), b, ImageOf(u));
    }
  }

  lemma TracksEnter(s: Sight, f: F.Frame, t: Sight, fs: F.Todo)
    requires Faithful(s) ==> Faithful(t) && F.Step(ImageOf(s), f) == (ImageOf(t), fs)
    ensures Tracks(s, [f], t, fs)
  {
    hide F.Comes, Faithful, ImageOf, F.Step;
    if Faithful(s) {
      F.Enter(ImageOf(s), f);
    }
  }

  lemma TracksTurn(s: Sight, f: F.Frame, g: F.Frame, rest: F.Frame, t: Sight)
    requires Faithful(s) ==> F.Step(ImageOf(s), f) == (ImageOf(s), [g, rest])
    requires Tracks(s, [g], t, [])
    ensures Tracks(s, [f], t, [rest])
  {
    hide F.Comes, Faithful, ImageOf, F.Step;
    if Faithful(s) {
      F.Turn(ImageOf(s), f, g, rest, ImageOf(t));
    }
  }

  /** The first call returns. */
  lemma TracksAdvance(s: Sight, f: F.Frame, t: Sight, rest: F.Todo)
    requires Tracks(s, [f], t, [])
    ensures Tracks(s, [f] + rest, t, rest)
  {
    hide F.Comes, Faithful, ImageOf;
    if Faithful(s) {
      F.Advance(ImageOf(s), [f], ImageOf(t), rest);
    }
  }

  // ---------------------------------------------------------------------------------------------
  // What a step changes in the image

  lemma BodyAt(fs: Pool, x: FiberId, g: Fiber)
    ensures Bodies(fs[x := g]) == Bodies(fs)[x := BodyOf(g)]
  {}

  lemma SpawnedAt(fs: Pool, queue: seq<FiberId>, x: FiberId, g: Fiber)
    requires Spawned(fs, queue) && x in fs && (g.activation == Loading <==> fs[x].activation == Loading)
    ensures Spawned(fs[x := g], queue)
  {}

  lemma ResolvesSame(bs: Slots, x: FiberId, k: ServiceId)
    requires Available(bs)
    ensures Resolves(bs, x, k) <==> O.Resolves(BondsOf(bs), x, k)
    ensures Resolves(bs, x, k) ==> BondsOf(bs)[k].provider == bs[k].provider
  {}

  lemma TargetSame(bs: Slots, x: FiberId, c: Component)
    requires Available(bs)
    ensures Satisfiable(bs, x, c) <==> F.Met(BondsOf(bs), x, c)
    ensures Resolution(bs, x, c) == F.Offered(BondsOf(bs), x, c)
  {
    hide Resolves, O.Resolves, BondsOf, Available;
    forall k ensures Resolves(bs, x, k) <==> O.Resolves(BondsOf(bs), x, k) {
      ResolvesSame(bs, x, k);
    }
    forall k | k in Resolution(bs, x, c)
      ensures k in F.Offered(BondsOf(bs), x, c) && F.Offered(BondsOf(bs), x, c)[k] == Resolution(bs, x, c)[k]
    {
      ResolvesSame(bs, x, k);
    }
    forall k | k in F.Offered(BondsOf(bs), x, c) ensures k in Resolution(bs, x, c) {
      ResolvesSame(bs, x, k);
    }
  }

  // ---------------------------------------------------------------------------------------------
  // Evaluation

  /** The outcome of evaluating a fiber that calls nothing. */
  function Loaded(s: Sight, id: FiberId): Sight
    requires id in s.world.fibers
  {
    var f := s.world.fibers[id];
    Sight(s.world.(fibers := s.world.fibers[id := Started(f, Resolution(s.world.slots, id, f.spec))]), s.queue + [id], s.marks)
  }

  lemma EvalStart(s: Sight, id: FiberId)
    requires id in s.world.fibers
    requires var f := s.world.fibers[id];
      f.state == Inactive && f.activation == Inactive && f.reactivate >= 0 && !f.applyFailed && Satisfiable(s.world.slots, id, f.spec)
    ensures Tracks(s, [F.Eval(id)], Loaded(s, id), [])
  {
    hide Satisfiable, Resolution, F.Met, F.Offered, Available, F.Comes;
    var f, t := s.world.fibers[id], Loaded(s, id);
    if Faithful(s) {
      TargetSame(s.world.slots, id, f.spec);
      BodyAt(s.world.fibers, id, t.world.fibers[id]);
      LoadedFaithful(s, id);
    }
    TracksEnter(s, F.Eval(id), t, []);
  }

  lemma LoadedFaithful(s: Sight, id: FiberId)
    requires Faithful(s) && id in s.world.fibers && s.world.fibers[id].activation == Inactive
    ensures Faithful(Loaded(s, id))
  {
    assert id !in s.queue;
  }

  lemma EvalNothing(s: Sight, id: FiberId)
    requires id in s.world.fibers
    requires var f := s.world.fibers[id];
      (f.state != Inactive && f.state != Active) || f.reactivate < 0 || (f.state == Active && AtTarget(s.world.slots, id, f))
    ensures Tracks(s, [F.Eval(id)], s, [])
  {
    hide Satisfiable, Resolution, F.Met, F.Offered, Available, F.Comes;
    if Faithful(s) {
      TargetSame(s.world.slots, id, s.world.fibers[id].spec);
    }
    TracksEnter(s, F.Eval(id), s, []);
  }

  /** A fiber that cannot start has the reason on record. */
  lemma EvalError(s: Sight, id: FiberId, g: Fiber)
    requires id in s.world.fibers
    requires var f := s.world.fibers[id];
      && f.state == Inactive && f.reactivate >= 0 && (f.applyFailed || !Satisfiable(s.world.slots, id, f.spec))
      && g == f.(error := g.error) && (f.error != None || !f.applyFailed ==> g.error != None)
    ensures Tracks(s, [F.Eval(id)], s.(world := s.world.(fibers := s.world.fibers[id := g])), [])
  {
    hide Satisfiable, F.Met, Available, F.Comes;
    var t := s.(world := s.world.(fibers := s.world.fibers[id := g]));
    if Faithful(s) {
      TargetSame(s.world.slots, id, s.world.fibers[id].spec);
      BodyAt(s.world.fibers, id, g);
      SpawnedAt(s.world.fibers, s.queue, id, g);
    }
    TracksEnter(s, F.Eval(id), t, []);
  }

  lemma EvalUnload(s: Sight, id: FiberId)
    requires id in s.world.fibers
    requires var f := s.world.fibers[id]; f.state == Active && f.reactivate >= 0 && !AtTarget(s.world.slots, id, f)
    ensures Tracks(s, [F.Eval(id)], s, [F.Unload(id, Satisfiable(s.world.slots, id, s.world.fibers[id].spec))])
  {
    hide Satisfiable, Resolution, F.Met, F.Offered, Available, F.Comes;
    if Faithful(s) {
      TargetSame(s.world.slots, id, s.world.fibers[id].spec);
    }
    TracksEnter(s, F.Eval(id), s, [F.Unload(id, Satisfiable(s.world.slots, id, s.world.fibers[id].spec))]);
  }

  // ---------------------------------------------------------------------------------------------
  // Unloading

  /** One record replaced, nothing else. */
  function Put(s: Sight, id: FiberId, g: Fiber): Sight {
    s.(world := s.world.(fibers := s.world.fibers[id := g]))
  }

  lemma PutFaithful(s: Sight, id: FiberId, g: Fiber)
    requires Faithful(s) && id in s.world.fibers && (g.activation == Loading <==> s.world.fibers[id].activation == Loading)
    requires g.applyFailed ==> g.error != None
    ensures Faithful(Put(s, id, g)) && ImageOf(Put(s, id, g)) == F.With(ImageOf(s), id, BodyOf(g))
  {
    BodyAt(s.world.fibers, id, g);
    SpawnedAt(s.world.fibers, s.queue, id, g);
  }

  lemma RaiseTracks(s: Sight, id: FiberId, flag: bool)
    requires id in s.world.fibers && -1 <= s.world.fibers[id].reactivate <= 1
    ensures Tracks(s, [F.Unload(id, flag)], Put(s, id, Raise(s.world.fibers[id], flag)), [F.Unload(id, false)])
  {
    hide F.Comes, F.Step, Available, Spawned;
    if Faithful(s) {
      var f := s.world.fibers[id];
      assert f.applyFailed ==> f.error != None;
      PutFaithful(s, id, Raise(f, flag));
      F.RaisedFirst(ImageOf(s), id, flag);
      F.Alike(ImageOf(s), F.Unload(id, flag), ImageOf(Put(s, id, Raise(f, flag))), F.Unload(id, false));
    }
  }

  lemma DivertTracks(s: Sight, id: FiberId)
    requires id in s.world.fibers && s.world.fibers[id].state != Active
    ensures
      var f := s.world.fibers[id];
      Tracks(s, [F.Unload(id, false)], if f.state == Loading then Put(s, id, Diverted(f)) else s, [])
  {
    hide F.Comes, Available, Spawned;
    var f := s.world.fibers[id];
    var t := if f.state == Loading then Put(s, id, Diverted(f)) else s;
    if Faithful(s) {
      assert f.applyFailed ==> f.error != None;
      PutFaithful(s, id, Diverted(f));
      assert ImageOf(s).bodies[id := ImageOf(s).bodies[id]] == ImageOf(s).bodies;
    }
    TracksEnter(s, F.Unload(id, false), t, []);
  }

  lemma RetiringSame(bs: Slots, id: FiberId)
    requires forall k | k in bs && bs[k].provider == id :: bs[k].state != Landing
    ensures BondsOf(RetireSlots(bs, id)) == F.Retiring(BondsOf(bs), id)
    ensures Available(bs) ==> Available(RetireSlots(bs, id))
  {}

  lemma HoldingSame(s: Sight, id: FiberId)
    requires id in s.world.fibers
    requires forall c | c in s.world.fibers[id].consumers :: c in s.world.fibers && s.world.fibers[c].state != Inactive
    ensures id in ImageOf(s).bodies && F.Holding(ImageOf(s), id) == s.world.fibers[id].consumers
  {}

  lemma FlipTracks(s: Sight, cx: Cascade, id: FiberId)
    requires Sound(s.world, cx) && id in s.world.fibers && s.world.fibers[id].state == Active
    requires forall c | c in s.world.fibers[id].consumers :: c in s.world.fibers && Relies(s.world.fibers[c], id)
    ensures Tracks(s, [F.Unload(id, false)],
                   s.(world := s.world.(fibers := s.world.fibers[id := Flipped(s.world.fibers[id])], slots := RetireSlots(s.world.slots, id))),
                   [F.UnloadEach(s.world.fibers[id].consumers), F.MaybeFinish(id)])
  {
    hide F.Comes, Available, Spawned, RetireSlots, F.Retiring, BondsOf, Sound;
    var f := s.world.fibers[id];
    var t := s.(world := s.world.(fibers := s.world.fibers[id := Flipped(f)], slots := RetireSlots(s.world.slots, id)));
    FlipFacts(s.world, cx, id);
    if Faithful(s) {
      assert f.applyFailed ==> f.error != None;
      PutFaithful(s, id, Flipped(f));
      RetiringSame(s.world.slots, id);
      HoldingSame(s, id);
      assert ImageOf(t) == ImageOf(Put(s, id, Flipped(f))).(bonds := F.Retiring(ImageOf(s).bonds, id));
    }
    TracksEnter(s, F.Unload(id, false), t, [F.UnloadEach(f.consumers), F.MaybeFinish(id)]);
  }

  lemma FlipFacts(w: World, cx: Cascade, id: FiberId)
    requires Sound(w, cx) && id in w.fibers && w.fibers[id].state == Active
    ensures w.fibers[id].remaining == 0 && w.fibers[id].activation == Active
    ensures forall k | k in w.slots && w.slots[k].provider == id :: w.slots[k].state != Landing
    ensures forall c | c in w.fibers && Relies(w.fibers[c], id) :: w.fibers[c].state != Inactive
  {
    ShapeOf(w, cx, id);
    ReliersAreUp(w, cx, id);
  }

  // ---------------------------------------------------------------------------------------------
  // Finishing

  lemma UnboundSame(bs: Slots, id: FiberId)
    ensures BondsOf(Unbind(bs, id)) == F.Unbound(BondsOf(bs), id)
    ensures Available(bs) ==> Available(Unbind(bs, id))
  {}

  function Finished(s: Sight, id: FiberId): Sight
    requires id in s.world.fibers
  {
    Sight(s.world.(fibers := s.world.fibers[id := Emptied(s.world.fibers[id])], slots := Unbind(s.world.slots, id),
                   log := s.world.log + [TornDown(id)]),
          s.queue, s.marks + [F.Cleaned(id)])
  }

  lemma FinishTracks(s: Sight, id: FiberId)
    requires id in s.world.fibers && s.world.fibers[id].activation == Unloading
    ensures Tracks(s, [F.Finish(id)], Finished(s, id),
                   [F.Release(id, s.world.fibers[id].committed), F.NotifyKeys(s.world.fibers[id].spec.provide), F.Reenter(id)])
  {
    hide F.Comes, Available, Spawned, Unbind, F.Unbound, BondsOf;
    var f, t := s.world.fibers[id], Finished(s, id);
    if Faithful(s) {
      assert f.applyFailed ==> f.error != None;
      PutFaithful(s, id, Emptied(f));
      UnboundSame(s.world.slots, id);
      assert ImageOf(t) == ImageOf(Put(s, id, Emptied(f))).(bonds := F.Unbound(ImageOf(s).bonds, id), marks := s.marks + [F.Cleaned(id)]);
    }
    TracksEnter(s, F.Finish(id), t, [F.Release(id, f.committed), F.NotifyKeys(f.spec.provide), F.Reenter(id)]);
  }

  lemma MaybeFinishTracks(s: Sight, id: FiberId)
    requires id in s.world.fibers
    ensures Tracks(s, [F.MaybeFinish(id)], s,
                   if s.world.fibers[id].state == Unloading && s.world.fibers[id].remaining == 0 then [F.Finish(id)] else [])
  {
    hide F.Comes, Faithful;
    var f := s.world.fibers[id];
    TracksEnter(s, F.MaybeFinish(id), s, if f.state == Unloading && f.remaining == 0 then [F.Finish(id)] else []);
  }

  /** The part of a view under some keys. */
  function Under(view: map<ServiceId, FiberId>, keys: set<ServiceId>): map<ServiceId, FiberId> {
    map k | k in view && k in keys :: view[k]
  }

  lemma ReleaseTracks(s: Sight, id: FiberId, view: map<ServiceId, FiberId>, todo: set<ServiceId>, k: ServiceId)
    requires todo <= view.Keys && F.IsFirst(todo, k) && k in todo && view[k] in s.world.fibers
    ensures
      var p := view[k];
      Tracks(s, [F.Release(id, Under(view, todo))], Put(s, p, Dropped(s.world.fibers[p], id)),
             (if s.world.fibers[p].remaining > 0 then [F.MaybeFinish(p)] else []) + [F.Release(id, Under(view, todo - {k}))])
  {
    hide F.Comes, Available, Spawned, F.Step, F.IsFirst;
    var p := view[k];
    var f := s.world.fibers[p];
    var fs := (if f.remaining > 0 then [F.MaybeFinish(p)] else []) + [F.Release(id, Under(view, todo - {k}))];
    FirstIn(todo, k);
    assert Under(view, todo).Keys == todo && Under(view, todo) - {k} == Under(view, todo - {k});
    if Faithful(s) {
      assert f.applyFailed ==> f.error != None;
      PutFaithful(s, p, Dropped(f, id));
      F.ReleaseStepAt(ImageOf(s), id, Under(view, todo), k);
    }
    TracksEnter(s, F.Release(id, Under(view, todo)), Put(s, p, Dropped(f, id)), fs);
  }

  lemma FirstIn(todo: set<ServiceId>, k: ServiceId)
    requires F.IsFirst(todo, k)
    ensures k in todo
  {}

  lemma ReleaseDone(s: Sight, id: FiberId, view: map<ServiceId, FiberId>)
    ensures Tracks(s, [F.Release(id, Under(view, {}))], s, [])
  {
    hide F.Comes, Faithful, F.Step;
    assert Under(view, {}) == map[];
    F.ReleaseNone(ImageOf(s), id);
    TracksEnter(s, F.Release(id, Under(view, {})), s, []);
  }

  lemma UnderAll(view: map<ServiceId, FiberId>)
    ensures Under(view, view.Keys) == view
  {}

  lemma ReenterTracks(s: Sight, id: FiberId)
    requires id in s.world.fibers
    ensures Tracks(s, [F.Reenter(id)],
                   if s.world.fibers[id].reactivate > 0 then Put(s, id, s.world.fibers[id].(reactivate := 0)) else s,
                   if s.world.fibers[id].reactivate > 0 then [F.Eval(id)] else [])
  {
    hide F.Comes, Available, Spawned;
    var f := s.world.fibers[id];
    if Faithful(s) {
      assert f.applyFailed ==> f.error != None;
      PutFaithful(s, id, f.(reactivate := 0));
    }
    TracksEnter(s, F.Reenter(id), if f.reactivate > 0 then Put(s, id, f.(reactivate := 0)) else s,
                if f.reactivate > 0 then [F.Eval(id)] else []);
  }

  // ---------------------------------------------------------------------------------------------
  // Notification

  lemma ListenersSame(s: Sight, k: ServiceId)
    requires Indexed(s.world)
    ensures F.Listeners(ImageOf(s), k) == if k in s.world.index then s.world.index[k] else {}
  {}

  lemma NotifyEachTurn(s: Sight, todo: set<FiberId>, c: FiberId, t: Sight)
    requires IsLeast(todo, c) && Tracks(s, [F.Eval(c)], t, [])
    ensures Tracks(s, [F.NotifyEach(todo)], t, [F.NotifyEach(todo - {c})])
  {
    hide F.Comes, Faithful, F.Step, ImageOf;
    F.NotifyEachStep(ImageOf(s), todo, c);
    TracksTurn(s, F.NotifyEach(todo), F.Eval(c), F.NotifyEach(todo - {c}), t);
  }

  lemma NotifyEachDone(s: Sight)
    ensures Tracks(s, [F.NotifyEach({})], s, [])
  {
    hide F.Comes, Faithful, F.Step, ImageOf;
    F.NotifyEachNone(ImageOf(s));
    TracksEnter(s, F.NotifyEach({}), s, []);
  }

  lemma NotifyKeysTurn(s: Sight, keys: set<ServiceId>, k: ServiceId, t: Sight)
    requires F.IsFirst(keys, k) && Tracks(s, [F.NotifyEach(F.Listeners(ImageOf(s), k))], t, [])
    ensures Tracks(s, [F.NotifyKeys(keys)], t, [F.NotifyKeys(keys - {k})])
  {
    hide F.Comes, Faithful, F.Step, ImageOf, F.IsFirst;
    F.NotifyKeysStep(ImageOf(s), keys, k);
    TracksTurn(s, F.NotifyKeys(keys), F.NotifyEach(F.Listeners(ImageOf(s), k)), F.NotifyKeys(keys - {k}), t);
  }

  lemma NotifyKeysDone(s: Sight)
    ensures Tracks(s, [F.NotifyKeys({})], s, [])
  {
    hide F.Comes, Faithful, F.Step, ImageOf;
    F.NotifyKeysNone(ImageOf(s));
    TracksEnter(s, F.NotifyKeys({}), s, []);
  }

  lemma UnloadEachTurn(s: Sight, todo: set<FiberId>, c: FiberId, t: Sight)
    requires IsLeast(todo, c) && Tracks(s, [F.Unload(c, true)], t, [])
    ensures Tracks(s, [F.UnloadEach(todo)], t, [F.UnloadEach(todo - {c})])
  {
    hide F.Comes, Faithful, F.Step, ImageOf;
    F.UnloadEachStep(ImageOf(s), todo, c);
    TracksTurn(s, F.UnloadEach(todo), F.Unload(c, true), F.UnloadEach(todo - {c}), t);
  }

  lemma UnloadEachDone(s: Sight)
    ensures Tracks(s, [F.UnloadEach({})], s, [])
  {
    hide F.Comes, Faithful, F.Step, ImageOf;
    F.UnloadEachNone(ImageOf(s));
    TracksEnter(s, F.UnloadEach({}), s, []);
  }

  /** A change the reference machine does not see. */
  lemma UnseenTracks(s: Sight, id: FiberId, g: Fiber, todo: F.Todo)
    requires id in s.world.fibers && BodyOf(g) == BodyOf(s.world.fibers[id])
    requires g.activation == Loading <==> s.world.fibers[id].activation == Loading
    ensures Tracks(s, todo, Put(s, id, g), todo)
  {
    hide F.Runs, Available, Spawned;
    if Faithful(s) {
      assert BodyOf(g).failed ==> BodyOf(g).error;
      PutFaithful(s, id, g);
      assert ImageOf(s).bodies[id := ImageOf(s).bodies[id]] == ImageOf(s).bodies;
    }
  }

  // ---------------------------------------------------------------------------------------------
  // Completions

  /** Everything the fiber declares to provide is bound to it. */
  predicate Provided(bs: Slots, id: FiberId, f: Fiber) {
    forall k | k in f.spec.provide :: k in bs && bs[k].provider == id
  }

  /** The apply at the head of the queue. */
  predicate Heads(s: Sight, id: FiberId) {
    id in s.world.fibers && InMotion(s.world.fibers[id]) && s.queue != [] && s.queue[0] == id
  }

  function Dequeued(queue: seq<FiberId>, id: FiberId): seq<FiberId> {
    if queue == [] then [] else if queue[0] == id then queue[1..] else [queue[0]] + Dequeued(queue[1..], id)
  }

  lemma LiveSame(bs: Slots, f: Fiber)
    requires Available(bs)
    ensures ViewLive(bs, f) <==> O.Live(BondsOf(bs), f.committed)
  {}

  lemma SpawnedLess(fs: Pool, queue: seq<FiberId>, gs: Pool)
    requires Spawned(fs, queue) && queue != [] && gs.Keys == fs.Keys
    requires forall x | x in fs :: gs[x].activation == Loading <==> fs[x].activation == Loading && x != queue[0]
    ensures Spawned(gs, queue[1..])
  {
    forall x ensures x in queue[1..] <==> x in queue && x != queue[0] {
      if x in queue && x != queue[0] {
        var i :| 0 <= i < |queue| && queue[i] == x;
        assert queue[1..][i - 1] == x;
      }
    }
  }

  function LandedSight(s: Sight, id: FiberId, raised: bool): Sight
    requires id in s.world.fibers && s.queue != []
  {
    Sight(s.world.(fibers := s.world.fibers[id := Landed(s.world.fibers[id], raised)], slots := Unbind(s.world.slots, id)),
          s.queue[1..], s.marks + [F.Ran(id), F.Cleaned(id)])
  }

  lemma LandTracks(s: Sight, id: FiberId, raised: bool)
    requires Sound(s.world, REST) && Withdrawing(s.world.fibers) == {} && Heads(s, id)
    requires raised || s.world.fibers[id].state == Unloading || !ViewLive(s.world.slots, s.world.fibers[id])
    ensures Tracks(s, [F.Next(raised)], LandedSight(s, id, raised),
                   if !ViewLive(s.world.slots, s.world.fibers[id]) && s.world.fibers[id].reactivate >= 0 then [F.Eval(id)] else [])
  {
    hide F.Comes, Available, Spawned, Unbind, F.Unbound, F.Bound, F.Enlisted, BondsOf, Sound, ViewLive, O.Live, Withdrawing;
    var f, t := s.world.fibers[id], LandedSight(s, id, raised);
    InFlightShape(s.world, id);
    if Faithful(s) {
      LiveSame(s.world.slots, f);
      UnboundSame(s.world.slots, id);
      BodyAt(s.world.fibers, id, t.world.fibers[id]);
      SpawnedLess(s.world.fibers, s.queue, t.world.fibers);
    }
    TracksEnter(s, F.Next(raised), t, if !ViewLive(s.world.slots, f) && f.reactivate >= 0 then [F.Eval(id)] else []);
  }

  lemma LandedNow(s: Sight, t: Sight, id: FiberId, raised: bool)
    requires Heads(s, id) && t.queue == Dequeued(s.queue, id) && t.marks == s.marks + [F.Ran(id)] + [F.Cleaned(id)]
    requires t.world == s.world.(fibers := s.world.fibers[id := Landed(s.world.fibers[id], raised)], slots := Unbind(s.world.slots, id))
    ensures t == LandedSight(s, id, raised)
  {
    assert s.marks + [F.Ran(id)] + [F.Cleaned(id)] == s.marks + [F.Ran(id), F.Cleaned(id)];
  }

  function PublishedSight(s: Sight, id: FiberId): Sight
    requires id in s.world.fibers && s.queue != []
  {
    Sight(AfterPublish(s.world, id), s.queue[1..], s.marks + [F.Ran(id)])
  }

  lemma PublishedNow(s: Sight, id: FiberId, queue: seq<FiberId>)
    requires Heads(s, id) && queue == Dequeued(s.queue, id)
    ensures PublishedSight(s, id) == Sight(AfterPublish(s.world, id), queue, s.marks + [F.Ran(id)])
  {}

  lemma ServedSame(bs: Slots, id: FiberId, f: Fiber)
    requires Provided(bs, id, f) && forall k | k in bs && bs[k].provider == id :: k in f.spec.provide
    ensures BondsOf(ServeSlots(bs, id)) == F.Bound(BondsOf(bs), f.spec.provide, id)
    ensures Available(bs) ==> Available(ServeSlots(bs, id))
  {}

  lemma EnlistedSame(fs: Pool, id: FiberId)
    requires id in fs && id !in fs[id].committed.Values
    ensures id in Bodies(fs) && Bodies(PublishedPool(fs, id)) == F.Enlisted(Bodies(fs), id)
  {}

  lemma PublishTracks(s: Sight, id: FiberId)
    requires Sound(s.world, REST) && Withdrawing(s.world.fibers) == {} && Heads(s, id)
    requires s.world.fibers[id].state == Loading && ViewLive(s.world.slots, s.world.fibers[id])
    requires Provided(s.world.slots, id, s.world.fibers[id])
    ensures Tracks(s, [F.Next(false)], PublishedSight(s, id), [F.NotifyKeys(s.world.fibers[id].spec.provide)])
  {
    hide F.Comes, Available, Spawned, ServeSlots, PublishedPool, F.Enlisted, F.Bound, BondsOf, Sound, ViewLive, O.Live, Withdrawing;
    var f, t := s.world.fibers[id], PublishedSight(s, id);
    InFlightShape(s.world, id);
    if Faithful(s) {
      LiveSame(s.world.slots, f);
      ServedSame(s.world.slots, id, f);
      EnlistedSame(s.world.fibers, id);
      PublishedFaithful(s, id);
    }
    TracksEnter(s, F.Next(false), t, [F.NotifyKeys(f.spec.provide)]);
  }

  lemma PublishedFaithful(s: Sight, id: FiberId)
    requires Faithful(s) && Heads(s, id) && Available(ServeSlots(s.world.slots, id))
    ensures Faithful(PublishedSight(s, id))
  {
    hide Available, ServeSlots;
    SpawnedLess(s.world.fibers, s.queue, PublishedPool(s.world.fibers, id));
  }

  /** A provision bound while the apply runs is not seen. */
  lemma ProvideUnseen(s: Sight, id: FiberId, k: ServiceId)
    requires Sound(s.world, REST) && id in s.world.fibers && s.world.fibers[id].activation == Loading
    requires k in s.world.fibers[id].spec.provide
    ensures var t := s.(world := s.world.(slots := s.world.slots[k := Binding(id, Landing, true)]));
      Faithful(s) ==> Faithful(t) && ImageOf(t) == ImageOf(s)
  {
    hide Spawned, Sound;
    OwnLanding(s.world, id, k);
    var bs := s.world.slots;
    assert BondsOf(bs[k := Binding(id, Landing, true)]) == BondsOf(bs);
  }

  lemma OwnLanding(w: World, id: FiberId, k: ServiceId)
    requires Sound(w, REST) && id in w.fibers && w.fibers[id].activation == Loading && k in w.fibers[id].spec.provide
    ensures k in w.slots ==> w.slots[k].state == Landing
  {
    hide Edges, Counters, Stamped, Waiting, Doomed, Heeded, LogOk, Indexed, Bounded, Shapes, Hold, Admissible;
    if k in w.slots {
      var p := w.slots[k].provider;
      assert p in w.fibers && k in w.fibers[p].spec.provide;
      assert p == id;
    }
  }

  // ---------------------------------------------------------------------------------------------
  // Mounting, retiring, erasing

  lemma InstallTracks(s: Sight, id: FiberId, c: Component, t: Sight)
    requires id !in s.world.fibers && t.world.fibers == s.world.fibers[id := Fresh(c)] && t.world.slots == s.world.slots
    requires t.queue == s.queue && t.marks == s.marks
    ensures Tracks(s, [F.Install(id, c)], t, [F.Eval(id)])
  {
    hide F.Comes, Available;
    if Faithful(s) {
      BodyAt(s.world.fibers, id, Fresh(c));
    }
    TracksEnter(s, F.Install(id, c), t, [F.Eval(id)]);
  }

  lemma RetireTracks(s: Sight, id: FiberId)
    requires id in s.world.fibers
    ensures Tracks(s, [F.Retire(id)], Put(s, id, Retired(s.world.fibers[id])), [F.Unload(id, false)])
  {
    hide F.Comes, Available, Spawned;
    if Faithful(s) {
      assert s.world.fibers[id].applyFailed ==> s.world.fibers[id].error != None;
      PutFaithful(s, id, Retired(s.world.fibers[id]));
    }
    TracksEnter(s, F.Retire(id), Put(s, id, Retired(s.world.fibers[id])), [F.Unload(id, false)]);
  }

  lemma EraseTracks(s: Sight, id: FiberId, t: Sight)
    requires id in s.world.fibers && s.world.fibers[id].activation == Inactive
    requires t.world.fibers == s.world.fibers - {id} && t.world.slots == s.world.slots && t.queue == s.queue && t.marks == s.marks
    ensures Tracks(s, [F.Erase(id)], t, [])
  {
    hide F.Comes, Available;
    if Faithful(s) {
      assert Bodies(s.world.fibers - {id}) == Bodies(s.world.fibers) - {id};
    }
    TracksEnter(s, F.Erase(id), t, []);
  }

  // ---------------------------------------------------------------------------------------------
  // Glue for the engine's methods

  /** A provider that no guard holds is not on its way out when an edge to it is erased. */
  lemma DropIdle(w: World, cx: Cascade, c: FiberId, p: FiberId)
    requires Sound(w, cx) && (c, p) in cx.pending
    ensures p in w.fibers && (w.fibers[p].remaining == 0 ==> w.fibers[p].state != Unloading)
  {
    assert c in Owed(cx.pending, p);
    assert w.fibers[p].consumers == Reliers(w.fibers, p) + Owed(cx.pending, p);
    assert Shape(p, w.fibers[p]);
  }

  lemma ReleasedFrames(s: Sight, s2: Sight, t: Sight, id: FiberId, view: map<ServiceId, FiberId>, todo: set<ServiceId>, k: ServiceId)
    requires todo <= view.Keys && k in todo && view[k] in s.world.fibers
    requires
      var p := view[k];
      Tracks(s, [F.Release(id, Under(view, todo))], s2,
             (if s.world.fibers[p].remaining > 0 then [F.MaybeFinish(p)] else []) + [F.Release(id, Under(view, todo - {k}))])
    requires if s.world.fibers[view[k]].remaining > 0 then Tracks(s2, [F.MaybeFinish(view[k])], t, []) else t == s2
    ensures Tracks(s, [F.Release(id, Under(view, todo))], t, [F.Release(id, Under(view, todo - {k}))])
  {
    hide Tracks, Under;
    var p, rest := view[k], F.Release(id, Under(view, todo - {k}));
    if s.world.fibers[p].remaining > 0 {
      TracksAdvance(s2, F.MaybeFinish(p), t, [rest]);
      TracksTrans(s, [F.Release(id, Under(view, todo))], s2, [F.MaybeFinish(p)] + [rest], t, [rest]);
    } else {
      assert [] + [rest] == [rest];
    }
  }

  lemma DetachedFrames(s0: Sight, s1: Sight, s3: Sight, id: FiberId)
    requires id in s0.world.fibers
    requires
      var f := s0.world.fibers[id];
      && Tracks(s0, [F.Finish(id)], s1, [F.Release(id, f.committed), F.NotifyKeys(f.spec.provide), F.Reenter(id)])
      && Tracks(s1, [F.Release(id, f.committed)], s3, [])
    ensures Tracks(s0, [F.Finish(id)], s3, [F.NotifyKeys(s0.world.fibers[id].spec.provide), F.Reenter(id)])
  {
    hide Tracks;
    var f := s0.world.fibers[id];
    var release, after := F.Release(id, f.committed), [F.NotifyKeys(f.spec.provide), F.Reenter(id)];
    TracksAdvance(s1, release, s3, after);
    assert [release] + after == [release, F.NotifyKeys(f.spec.provide), F.Reenter(id)];
    TracksTrans(s0, [F.Finish(id)], s1, [release] + after, s3, after);
  }

  lemma TornDownTrans(w0: World, cx: Cascade, w3: World, on: Cascade, w: World, frames: nat, id: FiberId)
    requires Sound(w0, cx) && Sound(w3, on) && Sound(w, cx.(frames := frames))
    requires Leads(w0, w3) && Calm(w0, w3) && Spared(w0, w3, {}) && Leads(w3, w) && Calm(w3, w) && Spared(w3, w, {})
    requires id in w3.fibers && !Published(w3.fibers[id])
    ensures Sound(w, cx) && Leads(w0, w) && Calm(w0, w) && Spared(w0, w, {})
    ensures id in w.fibers && !Published(w.fibers[id])
  {
    hide Sound, Leads, Calm, Spared;
    LeadsTrans(w0, cx, w3, on, w, cx.(frames := frames));
    SparedTrans(w0, w3, w, {});
    SameMembers(w3, w);
    SoundFrames(w, cx.(frames := frames), cx.frames);
  }

  lemma StillFree(v: World, w: World, keys: set<ServiceId>)
    requires Leads(v, w) && forall k | k in keys :: k !in v.slots
    ensures v.log <= w.log
    ensures forall k | k in keys :: k !in w.slots
  {
    forall k | k in keys ensures k !in w.slots {
      SlotGone(v, w, k);
    }
  }

  lemma Listening(s: Sight, cx: Cascade, k: ServiceId)
    requires Sound(s.world, cx)
    ensures F.Listeners(ImageOf(s), k) == if k in s.world.index then s.world.index[k] else {}
  {
    ListenersSame(s, k);
  }
}
