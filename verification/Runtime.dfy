/**
  The fiber engine: the methods of src/runtime.cpp that run on the control strand, over one root
  scope. A handler (mount, apply completion, promotion, retirement, erasure) is one call. Inside a
  handler the methods call each other re-entrantly and keep the invariants together with an account
  of what is still owed (`cx`).
 */
module Engine {
  import opened Basics
  import opened Fibers
  import opened FiberSteps
  import opened Cascades
  import opened Handlers
  import opened EngineImage
  import F = Frames

  /** What re-evaluating an inactive fiber `a` makes of it. */
  ghost predicate Reevaluated(bs: Slots, id: FiberId, a: Fiber, b: Fiber) {
    if a.reactivate >= 0 && !a.applyFailed && Satisfiable(bs, id, a.spec) then
      b == Started(a, Resolution(bs, id, a.spec))
    else if a.reactivate >= 0 && a.error == None && !Satisfiable(bs, id, a.spec) then
      exists k :: FirstMissing(bs, id, a.spec, k) && b == a.(error := Some(Unresolved(k)))
    else
      b == a
  }

  /** What the completion of an apply makes of the engine: the fiber is published and its dependents are
      woken, or its outcome is recorded, its slots are freed, and only a stale load is tried again. */
  ghost predicate Completes(v: World, w: World, id: FiberId, raised: bool)
    requires id in v.fibers
  {
    if Publishes(v, id, raised) then
      var u := AfterPublish(v, id);
      && Leads(u, w) && Spared(u, w, {})
      && id in w.fibers && w.fibers[id].activation == Active
      && (v.fibers[id].spec.provide == {} ==> w == u)
    else
      && id in w.fibers
      && w == v.(fibers := v.fibers[id := w.fibers[id]], slots := Unbind(v.slots, id))
      && var g := Landed(v.fibers[id], raised);
         if !ViewLive(v.slots, v.fibers[id]) && g.reactivate >= 0 then Reevaluated(w.slots, id, g, w.fibers[id])
         else w.fibers[id] == g
  }

  /** How an apply came out, in the fiber's own fields: a raise is recorded as such and is final, a diverted
      apply that is not tried again was cancelled, and one that lost its providers waits for the first of
      them that is missing. */
  ghost predicate Recorded(v: World, w: World, id: FiberId, raised: bool)
    requires id in v.fibers
  {
    && id in w.fibers
    && var f, g, live := v.fibers[id], w.fibers[id], ViewLive(v.slots, v.fibers[id]);
       var again := !raised && !live && f.reactivate >= 0 && Satisfiable(w.slots, id, f.spec);
       && (g.applyFailed <==> raised)
       && (raised ==> g.state == Inactive && g.error == Some(Raised))
       && (!raised && live && f.state == Loading ==> g.state == Active && g.committed == f.committed && g.error == None)
       && (again ==> g.state == Loading && g.committed == Resolution(w.slots, id, f.spec) && g.error == None)
       && (!raised && !again && f.state == Unloading ==> g.state == Inactive && g.error == Some(Cancelled))
       && (!raised && !again && f.state == Loading && !live ==>
             && g.state == Inactive
             && if f.reactivate < 0 then g.error == None else exists k :: FirstMissing(w.slots, id, f.spec, k) && g.error == Some(Unresolved(k)))
  }

  lemma OutcomeRecorded(v: World, w: World, id: FiberId, raised: bool)
    requires Sound(v, REST) && Withdrawing(v.fibers) == {} && Sound(w, REST) && id in v.fibers && InMotion(v.fibers[id])
    requires Completes(v, w, id, raised)
    ensures Recorded(v, w, id, raised)
  {
    hide Sound, Withdrawing, Resolution, Satisfiable, ViewLive, FirstMissing, Spared, Unbind, AfterPublish;
    InFlightShape(v, id);
    ShapeOf(v, REST, id);
    ShapeOf(w, REST, id);
    if Publishes(v, id, raised) {
      PublicationKept(v, w, id);
    }
  }

  lemma PublicationKept(v: World, w: World, id: FiberId)
    requires id in v.fibers && Leads(AfterPublish(v, id), w) && id in w.fibers && w.fibers[id].activation == Active
    ensures w.fibers[id].committed == v.fibers[id].committed
  {
    hide Satisfiable, ViewLive, ServeSlots;
    var u := AfterPublish(v, id);
    assert Moves(id, u.fibers[id], w.fibers[id], u.slots, w.slots);
  }

  /** A completion that does not publish leaves the fiber off its target exactly when it strays. */
  lemma LandedStray(v: World, w: World, id: FiberId, raised: bool)
    requires Sound(v, REST) && Withdrawing(v.fibers) == {} && id in v.fibers && InMotion(v.fibers[id]) && !Publishes(v, id, raised)
    requires Completes(v, w, id, raised)
    ensures id in Astray(w) <==> Strays(v, id, raised)
  {
    hide Sound, Withdrawing, Resolution;
    InFlightShape(v, id);
    if ViewLive(v.slots, v.fibers[id]) {
      LandedLive(v, w, id, raised);
    } else {
      LandedStale(v, w, id, raised);
    }
  }

  /** A completion that is not tried again owes no evaluation. */
  lemma LandedStays(w0: World, w1: World, id: FiberId, raised: bool)
    requires Sound(w0, REST) && Withdrawing(w0.fibers) == {} && id in w0.fibers && InMotion(w0.fibers[id]) && !Publishes(w0, id, raised)
    requires ViewLive(w0.slots, w0.fibers[id]) || w0.fibers[id].reactivate < 0
    requires w1 == w0.(fibers := w0.fibers[id := Landed(w0.fibers[id], raised)], slots := Unbind(w0.slots, id))
    requires Sound(w1, Watching(Attended(w0, {id})).(dirty := {id}, frames := 1))
    ensures Sound(w1, Watching(Attended(w0, {id})).(frames := 1))
  {
    hide Sound, Withdrawing, Unbind, ViewLive, Attended;
    var watched := Attended(w0, {id});
    Attend(w0, {id});
    InFlightShape(w0, id);
    DivertedFlag(w0, id);
    SoundFrames(w1, Watching(watched).(dirty := {id}, frames := 1), 0);
    LandedRests(w1, id, watched);
    SoundFrames(w1, Watching(watched), 1);
  }

  lemma LandedLive(v: World, w: World, id: FiberId, raised: bool)
    requires Sound(v, REST) && Withdrawing(v.fibers) == {} && id in v.fibers && InMotion(v.fibers[id]) && !Publishes(v, id, raised)
    requires Completes(v, w, id, raised) && ViewLive(v.slots, v.fibers[id])
    ensures id in Astray(w) <==> Strays(v, id, raised)
  {
    hide Sound, Withdrawing, Resolution, ViewLive;
    InFlightShape(v, id);
    LiveSatisfiable(v, id);
    assert forall k | Resolves(v.slots, id, k) :: Resolves(w.slots, id, k);
  }

  lemma LandedStale(v: World, w: World, id: FiberId, raised: bool)
    requires Sound(v, REST) && Withdrawing(v.fibers) == {} && id in v.fibers && InMotion(v.fibers[id]) && !Publishes(v, id, raised)
    requires Completes(v, w, id, raised) && !ViewLive(v.slots, v.fibers[id])
    ensures id !in Astray(w) && !Strays(v, id, raised)
  {
    hide Sound, Withdrawing, Resolution, ViewLive;
    InFlightShape(v, id);
  }

  datatype Promotion = Promoted | AlreadyAvailable | NoBinding | NotTheProvider | CannotDemote

  datatype Resolved = Resolved(satisfiable: bool, providers: map<ServiceId, FiberId>, error: Option<FiberError>)

  class Runtime {
    var fibers: Pool
    var slots: Slots
    var consumersOf: map<ServiceId, set<FiberId>>
    var inFlight: nat
    var idleOpen: bool
    var nextId: FiberId
    var queue: seq<FiberId>  // applies spawned on the strand and not returned yet, in order
    ghost var stamps: map<FiberId, nat>
    ghost var clock: nat
    ghost var log: seq<Event>
    ghost var marks: seq<F.Mark>

    ghost function Now(): World
      reads this
    {
      World(fibers, slots, consumersOf, nextId, stamps, clock, log)
    }

    ghost function Seen(): Sight
      reads this
    {
      Sight(Now(), queue, marks)
    }

    /** Transitions in flight, those whose closing call is still on the stack included. */
    ghost predicate Accounted(frames: nat)
      reads this
    {
      && inFlight == |Moving(fibers)| + frames
      && (idleOpen <==> inFlight == 0)
    }

    /** The invariant at any point of a cascade. */
    ghost predicate Running(cx: Cascade)
      reads this
    {
      Sound(Now(), cx) && Accounted(cx.frames)
    }

    /** What every re-entrant method guarantees about its part of the cascade. */
    twostate predicate Cascaded(scope: set<FiberId>)
      reads this
    {
      Leads(old(Now()), Now()) && Calm(old(Now()), Now()) && Spared(old(Now()), Now(), scope)
    }

    /** The invariant between handlers: nothing is owed and nobody is left withdrawing. */
    ghost predicate Valid()
      reads this
    {
      Running(REST) && Withdrawing(fibers) == {}
    }

    constructor ()
      ensures Valid() && fibers == map[] && log == []
      ensures slots == map[] && queue == [] && marks == [] && nextId == 1
    {
      fibers, slots, consumersOf := map[], map[], map[];
      inFlight, idleOpen, nextId, queue := 0, true, 1, [];
      stamps, clock, log, marks := map[], 0, [], [];
    }

    // -------------------------------------------------------------------------------------------
    // Transition accounting

    method TransitionStarted()
      modifies this`inFlight, this`idleOpen
      ensures inFlight == old(inFlight) + 1 && !idleOpen
    {
      idleOpen := false;
      inFlight := inFlight + 1;
    }

    method TransitionFinished()
      requires inFlight > 0
      modifies this`inFlight, this`idleOpen
      ensures inFlight == old(inFlight) - 1
      ensures idleOpen <==> inFlight == 0 || old(idleOpen)
    {
      inFlight := inFlight - 1;
      if inFlight == 0 {
        idleOpen := true;
      }
    }

    // -------------------------------------------------------------------------------------------
    // Resolution and loading

    method Resolve(id: FiberId) returns (r: Resolved)
      requires id in fibers
      ensures r.satisfiable <==> Satisfiable(slots, id, fibers[id].spec)
      ensures r.satisfiable ==> r.providers == Resolution(slots, id, fibers[id].spec) && r.error == None
      ensures !r.satisfiable ==>
        exists k :: FirstMissing(slots, id, fibers[id].spec, k) && r.error == Some(Unresolved(k))
    {
      var inject := fibers[id].spec.inject;
      var providers := map[];
      for i := 0 to |inject|
        invariant forall j | 0 <= j < i && inject[j].required :: Resolves(slots, id, inject[j].key)
        invariant forall k | k in providers :: Resolves(slots, id, k) && providers[k] == slots[k].provider && k in fibers[id].spec.Keys()
        invariant forall j | 0 <= j < i && Resolves(slots, id, inject[j].key) :: inject[j].key in providers
      {
        var dep := inject[i];
        if Resolves(slots, id, dep.key) {
          providers := providers[dep.key := slots[dep.key].provider];
        } else if dep.required {
          assert dep.key in fibers[id].spec.RequiredKeys();
          assert FirstMissing(slots, id, fibers[id].spec, dep.key) by { assert inject[i] == Dependency(dep.key, true); }
          return Resolved(false, providers, Some(Unresolved(dep.key)));
        }
      }
      return Resolved(true, providers, None);
    }

    method ProvidersStillActive(id: FiberId) returns (ok: bool)
      requires id in fibers
      ensures ok <==> ViewLive(slots, fibers[id])
    {
      var todo := fibers[id].committed.Keys;
      while todo != {}
        invariant todo <= fibers[id].committed.Keys
        invariant forall k | k in fibers[id].committed && k !in todo ::
          k in slots && slots[k].provider == fibers[id].committed[k] && slots[k].state == Serving && slots[k].available
      {
        var k :| k in todo;
        if k !in slots || slots[k].provider != fibers[id].committed[k] || slots[k].state != Serving || !slots[k].available {
          return false;
        }
        todo := todo - {k};
      }
      return true;
    }

    method StartLoading(id: FiberId, ghost cx: Cascade)
      requires Running(cx) && id in fibers
      requires fibers[id].state == Inactive && fibers[id].reactivate >= 0 && !fibers[id].applyFailed
      requires Satisfiable(slots, id, fibers[id].spec)
      modifies this
      ensures Running(cx.(dirty := cx.dirty - {id})) && Cascaded({})
      ensures Now() == old(Now()).(fibers := old(fibers)[id := Started(old(fibers)[id], Resolution(old(slots), id, old(fibers)[id].spec))])
      ensures Seen() == Loaded(old(Seen()), id)
    {
      hide Sound, Leads, Calm, Spared, Moving, Satisfiable, Resolution;
      var r := Resolve(id);
      StartStep(Now(), cx, id, r.providers);
      fibers := fibers[id := fibers[id].(error := None, applyFailed := false, state := Loading, stopRequested := false,
                                         activation := Loading, committed := r.providers)];
      TransitionStarted();
      queue := queue + [id];
    }

    // -------------------------------------------------------------------------------------------
    // The re-entrant cascade

    /** Re-evaluates a fiber against its target; returns at once while it is in motion. */
    method Evaluate(id: FiberId, ghost cx: Cascade)
      requires Running(cx) && id in fibers
      requires fibers[id].state == Active && fibers[id].spec.RequiredOnly() ==> AtTarget(slots, id, fibers[id])
      modifies this
      ensures Running(cx.(dirty := cx.dirty - {id})) && Cascaded({})
      ensures old(fibers)[id].state == Inactive ==>
        id in fibers && Now() == old(Now()).(fibers := old(fibers)[id := fibers[id]])
        && Reevaluated(slots, id, old(fibers)[id], fibers[id])
      ensures old(fibers)[id].state == Active && old(fibers)[id].reactivate >= 0 && !AtTarget(old(slots), id, old(fibers)[id]) ==>
        id in fibers && !Published(fibers[id])
      ensures old(fibers)[id].state == Active && (old(fibers)[id].reactivate < 0 || AtTarget(old(slots), id, old(fibers)[id])) ==>
        Now() == old(Now())
      ensures InMotion(old(fibers)[id]) ==> Now() == old(Now())
      ensures Tracks(old(Seen()), [F.Eval(id)], Seen(), [])
      decreases Actives(fibers), Withdrawing(fibers), 3
    {
      hide Sound, Leads, Calm, Spared, Moving, Satisfiable, Resolution, Actives, Withdrawing, Tracks;
      ghost var s0 := Seen();
      LeadsRefl(Now(), cx);
      ShapeOf(Now(), cx, id);
      if fibers[id].state != Inactive && fibers[id].state != Active {
        EvaluatedAway(Now(), cx, id);
        EvalNothing(s0, id);
        return;
      }
      if fibers[id].reactivate < 0 {
        EvaluatedAway(Now(), cx, id);
        EvalNothing(s0, id);
        return;
      }
      var r := Resolve(id);
      if fibers[id].state == Inactive {
        if r.satisfiable && !fibers[id].applyFailed {
          EvalStart(s0, id);
          StartLoading(id, cx);
        } else {
          EvaluatedAway(Now(), cx, id);
          EvalError(s0, id, if fibers[id].error == None then fibers[id].(error := r.error) else fibers[id]);
          if fibers[id].error == None {
            TouchStep(Now(), cx.(dirty := cx.dirty - {id}), id, fibers[id].(error := r.error));
            fibers := fibers[id := fibers[id].(error := r.error)];
          } else {
            assert fibers == fibers[id := fibers[id]];
          }
        }
        return;
      }
      var same := r.satisfiable && r.providers == fibers[id].committed;
      if same {
        TargetMinded(slots, id, fibers[id]);
        EvaluatedAway(Now(), cx, id);
        EvalNothing(s0, id);
        return;
      }
      EvalUnload(s0, id);
      LeafUnloadable(Now(), cx, id);
      BeginUnload(id, r.satisfiable, cx, {id});
      SparedLeaf(old(Now()), Now(), id);
      TracksTrans(s0, [F.Eval(id)], s0, [F.Unload(id, r.satisfiable)], Seen(), []);
    }

    /**
      Unloads a fiber: raises its re-entry flag (a retirement is never undone), diverts it when its
      apply is in flight, and when it is active withdraws it behind its consumers.
     */
    method BeginUnload(id: FiberId, flag: bool, ghost cx: Cascade, ghost scope: set<FiberId>)
      requires Running(cx) && id in fibers
      requires fibers[id].state == Active ==>
        Unloadable(Now(), id, cx, scope)
        && (flag || fibers[id].reactivate != 0 || !Satisfiable(slots, id, fibers[id].spec))
      requires fibers[id].state == Loading && fibers[id].spec.RequiredOnly() ==> fibers[id].reactivate == -1
      modifies this
      ensures Running(if old(fibers)[id].state == Active then cx.(dirty := cx.dirty - {id}) else cx)
      ensures old(fibers)[id].state == Active ==> Cascaded(scope) && id in fibers && !Published(fibers[id])
      ensures old(fibers)[id].state == Loading ==>
        Now() == old(Now()).(fibers := old(fibers)[id := Diverted(Raise(old(fibers)[id], flag))])
      ensures old(fibers)[id].state == Inactive || old(fibers)[id].state == Unloading ==>
        Now() == old(Now()).(fibers := old(fibers)[id := Raise(old(fibers)[id], flag)])
      ensures Tracks(old(Seen()), [F.Unload(id, flag)], Seen(), [])
      decreases Actives(fibers), Withdrawing(fibers), 2
    {
      hide Sound, Leads, Calm, Spared, Moving, Satisfiable, Actives, Withdrawing, Unloadable, Tracks;
      ghost var w0 := Now();
      ghost var s0 := Seen();
      ShapeOf(w0, cx, id);
      RaiseStep(w0, cx, id, flag, scope);
      RaiseFlag(id, flag, cx);
      ghost var w1 := Now();
      ghost var s1 := Seen();
      if fibers[id].state != Active {
        DivertTracks(s1, id);
      }
      if fibers[id].state == Unloading || fibers[id].state == Inactive {
        TracksTrans(s0, [F.Unload(id, flag)], s1, [F.Unload(id, false)], Seen(), []);
        return;
      }
      if fibers[id].state == Loading {
        DivertStep(w1, cx, id);
        fibers := fibers[id := fibers[id].(state := Unloading, stopRequested := true)];
        TracksTrans(s0, [F.Unload(id, flag)], s1, [F.Unload(id, false)], Seen(), []);
        return;
      }
      UnloadActive(id, cx, scope);
      TracksTrans(s0, [F.Unload(id, flag)], s1, [F.Unload(id, false)], Seen(), []);
      LeadsTrans(w0, cx, w1, cx, Now(), cx.(dirty := cx.dirty - {id}));
      SparedWiden(w0, w1, scope);
      SparedTrans(w0, w1, Now(), scope);
    }

    /** The re-entry flag only rises, and a retirement is never lifted. */
    method RaiseFlag(id: FiberId, flag: bool, ghost cx: Cascade)
      requires Running(cx) && id in fibers
      modifies this`fibers
      ensures Now() == old(Now()).(fibers := old(fibers)[id := Raise(old(fibers)[id], flag)])
      ensures Tracks(old(Seen()), [F.Unload(id, flag)], Seen(), [F.Unload(id, false)])
    {
      hide Sound, Tracks;
      ShapeOf(Now(), cx, id);
      RaiseTracks(Seen(), id, flag);
      if fibers[id].reactivate >= 0 {
        fibers := fibers[id := fibers[id].(reactivate := if flag || fibers[id].reactivate == 1 then 1 else 0)];
      }
    }

    /** The part of begin_unload past its early returns. */
    method UnloadActive(id: FiberId, ghost cx: Cascade, ghost scope: set<FiberId>)
      requires Running(cx) && id in fibers
      requires fibers[id].state == Active && Unloadable(Now(), id, cx, scope)
      requires fibers[id].reactivate == 0 ==> !Satisfiable(slots, id, fibers[id].spec)
      modifies this
      ensures Running(cx.(dirty := cx.dirty - {id})) && Cascaded(scope) && id in fibers && !Published(fibers[id])
      ensures Tracks(old(Seen()), [F.Unload(id, false)], Seen(), [])
      decreases Actives(fibers), Withdrawing(fibers), 1
    {
      hide Sound, Leads, Calm, Spared, Moving, Satisfiable, Actives, Withdrawing, Unloadable, RetireSlots, Relies, Closed, Tracks;
      ghost var w0 := Now();
      ghost var s0 := Seen();
      UnloadableFacts(w0, id, cx, scope);
      ShapeOf(w0, cx, id);
      ConsumersRely(w0, cx, id, scope);
      FlipTracks(s0, cx, id);
      FlipStep(w0, cx, id);
      ClosedAfterFlip(w0, id, scope);
      MarkUnloading(id, cx);
      ghost var after := cx.(dirty := cx.dirty - {id});
      ghost var w1 := Now();
      FlippedReliers(w0.fibers, id);
      LeadsShrunk(w0, w1);
      assert Actives(fibers) < old(Actives(fibers));
      ghost var s1 := Seen();
      ghost var consumers := fibers[id].consumers;
      UnloadConsumers(id, fibers[id].consumers, after, scope);
      ghost var w2 := Now();
      ghost var s2 := Seen();
      Released(w1, w2, after, id);
      LeadsShrunk(w1, w2);
      CloseAfterConsumers(id, after, scope, w1);
      TracksBoth(s1, [F.UnloadEach(consumers)], s2, [F.MaybeFinish(id)], Seen());
      assert [F.UnloadEach(consumers)] + [F.MaybeFinish(id)] == [F.UnloadEach(consumers), F.MaybeFinish(id)];
      TracksTrans(s0, [F.Unload(id, false)], s1, [F.UnloadEach(consumers), F.MaybeFinish(id)], Seen(), []);
      CloseUnload(w0, cx, w1, Now(), after, id, scope);
    }

    /** Flips the fiber, its slots and its guard counter; no invariant is read in between. */
    method MarkUnloading(id: FiberId, ghost cx: Cascade)
      requires Running(cx) && id in fibers && fibers[id].state == Active
      requires forall c | c in fibers[id].consumers :: c in fibers && Relies(fibers[c], id)
      requires forall k | k in slots && slots[k].provider == id :: k in fibers[id].spec.provide
      modifies this
      ensures Now() == old(Now()).(fibers := old(fibers)[id := Flipped(old(fibers)[id])], slots := RetireSlots(old(slots), id))
      ensures inFlight == old(inFlight) + 1 && !idleOpen
      ensures queue == old(queue) && marks == old(marks)
    {
      hide Sound, Moving, RetireSlots;
      ReliersAreUp(Now(), cx, id);
      fibers := fibers[id := fibers[id].(state := Unloading, activation := Unloading)];
      TransitionStarted();
      RetireProvisions(id);
      var remaining := CountReliers(id, fibers[id].consumers);
      fibers := fibers[id := fibers[id].(remaining := remaining)];
    }

    /** The end of begin_unload: request the stop, then finish if nobody holds the guard. */
    method CloseAfterConsumers(id: FiberId, ghost cx: Cascade, ghost scope: set<FiberId>, ghost w1: World)
      requires Running(cx) && id in fibers && fibers[id].remaining == 0
      requires fibers[id].activation != Loading
      requires fibers[id].state == Unloading ==> fibers[id].activation == Unloading
      requires !Published(fibers[id]) ==> fibers[id].state == Inactive
      requires fibers[id].state != Active
      requires Sound(w1, cx) && Leads(w1, Now()) && Calm(w1, Now()) && Spared(w1, Now(), scope)
      modifies this
      ensures Running(cx) && id in fibers && !Published(fibers[id])
      ensures Leads(w1, Now()) && Calm(w1, Now()) && Spared(w1, Now(), scope)
      ensures Tracks(old(Seen()), [F.MaybeFinish(id)], Seen(), [])
      decreases Actives(fibers), Withdrawing(fibers), 3
    {
      hide Sound, Leads, Calm, Spared, Moving, Satisfiable, Actives, Withdrawing, Tracks;
      ghost var w2 := Now();
      ghost var s2 := Seen();
      UnseenTracks(s2, id, fibers[id].(stopRequested := true), [F.MaybeFinish(id)]);
      ShapeOf(w2, cx, id);
      StopStep(w2, cx, id);
      fibers := fibers[id := fibers[id].(stopRequested := true)];
      ghost var w3 := Now();
      LeadsTrans(w1, cx, w2, cx, w3, cx);
      SparedWiden(w2, w3, scope);
      SparedTrans(w1, w2, w3, scope);
      LeadsShrunk(w2, w3);
      ghost var s3 := Seen();
      MaybeFinishUnload(id, cx);
      TracksTrans(s2, [F.MaybeFinish(id)], s3, [F.MaybeFinish(id)], Seen(), []);
      LeadsTrans(w1, cx, w3, cx, Now(), cx);
      SparedWiden(w3, Now(), scope);
      SparedTrans(w1, w3, Now(), scope);
    }

    /** The unloading loop over a copy of the consumer set. */
    method UnloadConsumers(id: FiberId, consumers: set<FiberId>, ghost cx: Cascade, ghost scope: set<FiberId>)
      requires Running(cx) && id in fibers && fibers[id].activation == Unloading
      requires id in scope && Closed(fibers, scope)
      requires consumers != {} ==>
        cx.pending == {} && id in stamps
        && forall u | u in Withdrawing(fibers) && u != id :: u in stamps && stamps[u] < stamps[id]
      requires forall c | c in consumers :: c in fibers && Relies(fibers[c], id)
      modifies this
      ensures Running(cx) && Cascaded(scope)
      ensures forall c | c in consumers :: c in fibers && !Published(fibers[c])
      ensures consumers == {} ==> Now() == old(Now())
      ensures Tracks(old(Seen()), [F.UnloadEach(consumers)], Seen(), [])
      decreases Actives(fibers), Withdrawing(fibers), 6
    {
      hide Sound, Leads, Calm, Spared, Moving, Satisfiable, Actives, Withdrawing, Unloadable, Closed, Relies, Diverted, Raise, Tracks;
      ghost var w1 := Now();
      ghost var s1 := Seen();
      TracksRefl(s1, [F.UnloadEach(consumers)]);
      LeadsRefl(w1, cx);
      SparedWiden(w1, w1, scope);
      var todo := consumers;
      while todo != {}
        invariant todo <= consumers
        invariant Running(cx) && Cascaded(scope)
        invariant forall c | c in consumers && c !in todo :: c in fibers && !Published(fibers[c])
        invariant consumers == {} ==> Now() == w1
        invariant Tracks(s1, [F.UnloadEach(consumers)], Seen(), [F.UnloadEach(todo)])
      {
        HasLeast(todo);
        var c :| c in todo && IsLeast(todo, c);
        ghost var w := Now();
        ghost var s := Seen();
        NextConsumer(w1, w, cx, id, c);
        ShapeOf(w, cx, c);
        if fibers[c].state == Active {
          NextUnloadable(w1, w, cx, id, c, scope);
        }
        LeadsShrunk(w1, w);
        BeginUnload(c, true, cx, scope);
        if w.fibers[c].state == Active {
          SoundWeaken(Now(), cx.(dirty := cx.dirty - {c}), cx.dirty);
          LeadsTrans(w1, cx, w, cx, Now(), cx);
          SparedTrans(w1, w, Now(), scope);
        } else {
          RelierPublished(w1, c, id);
          ConsumerTouched(w1, w, cx, c, fibers[c], scope);
        }
        StillUnpublished(w, Now(), c);
        UnloadEachTurn(s, todo, c, Seen());
        TracksTrans(s1, [F.UnloadEach(consumers)], s, [F.UnloadEach(todo)], Seen(), [F.UnloadEach(todo - {c})]);
        todo := todo - {c};
      }
      UnloadEachDone(Seen());
      TracksTrans(s1, [F.UnloadEach(consumers)], Seen(), [F.UnloadEach({})], Seen(), []);
    }

    method RetireProvisions(id: FiberId)
      requires id in fibers
      requires forall k | k in slots && slots[k].provider == id :: k in fibers[id].spec.provide
      modifies this`slots
      ensures slots == RetireSlots(old(slots), id)
    {
      var todo := fibers[id].spec.provide;
      while todo != {}
        invariant todo <= fibers[id].spec.provide
        invariant slots.Keys == old(slots).Keys
        invariant forall k | k in slots :: slots[k] == if slots[k].provider == id && k !in todo then old(slots)[k].(state := Retiring) else old(slots)[k]
      {
        var k :| k in todo;
        if k in slots && slots[k].provider == id {
          slots := slots[k := slots[k].(state := Retiring)];
        }
        todo := todo - {k};
      }
    }

    /** Counts the consumers that are up; the assertion is the engine's own. */
    method CountReliers(id: FiberId, consumers: set<FiberId>) returns (n: nat)
      requires forall c | c in consumers :: c in fibers && fibers[c].state != Inactive && id in fibers[c].committed.Values
      ensures n == |consumers|
    {
      n := 0;
      var todo := consumers;
      while todo != {}
        invariant todo <= consumers
        invariant n == |consumers| - |todo|
      {
        var c :| c in todo;
        if c in fibers && fibers[c].state != Inactive {
          assert id in fibers[c].committed.Values;
          n := n + 1;
        }
        todo := todo - {c};
      }
    }

    method MaybeFinishUnload(id: FiberId, ghost cx: Cascade)
      requires Running(cx) && id in fibers
      requires fibers[id].state == Unloading ==> fibers[id].activation == Unloading
      modifies this
      ensures Running(cx) && Cascaded({})
      ensures id in fibers
      ensures old(fibers)[id].state == Unloading && old(fibers)[id].remaining == 0 ==> !Published(fibers[id])
      ensures old(fibers)[id].state != Unloading || old(fibers)[id].remaining > 0 ==> Now() == old(Now()) && Seen() == old(Seen())
      ensures Tracks(old(Seen()), [F.MaybeFinish(id)], Seen(), [])
      decreases Actives(fibers), Withdrawing(fibers), 2
    {
      hide Sound, Leads, Calm, Spared, Moving, Satisfiable, Actives, Withdrawing, Tracks;
      ghost var s0 := Seen();
      MaybeFinishTracks(s0, id);
      if fibers[id].state != Unloading {
        LeadsRefl(Now(), cx);
        return;
      }
      if fibers[id].remaining > 0 {
        LeadsRefl(Now(), cx);
        return;
      }
      FinishUnload(id, cx);
      TracksTrans(s0, [F.MaybeFinish(id)], s0, [F.Finish(id)], Seen(), []);
    }

    method FinishUnload(id: FiberId, ghost cx: Cascade)
      requires Running(cx) && id in fibers
      requires fibers[id].activation == Unloading && fibers[id].remaining == 0
      modifies this
      ensures Running(cx) && Cascaded({})
      ensures id in fibers && !Published(fibers[id])
      ensures old(log) + [TornDown(id)] <= log
      ensures forall k | k in old(fibers)[id].spec.provide :: k !in slots
      ensures Tracks(old(Seen()), [F.Finish(id)], Seen(), [])
      decreases Actives(fibers), Withdrawing(fibers), 1
    {
      hide Sound, Leads, Calm, Spared, Moving, Satisfiable, Actives, Withdrawing, Tracks;
      ghost var w0 := Now();
      ghost var s0 := Seen();
      ghost var on := cx.(frames := cx.frames + 1, again := cx.again + Recalled(id, fibers[id]));
      PublishedOnce(w0, cx, id);
      Detach(id, cx);
      ghost var w3 := Now();
      ghost var s3 := Seen();
      FanOut(id, on);
      assert on.again - {id} == cx.again;
      TornDownTrans(w0, cx, w3, on, Now(), on.frames, id);
      TracksTrans(s0, [F.Finish(id)], s3, [F.NotifyKeys(w0.fibers[id].spec.provide), F.Reenter(id)], Seen(), []);
      StillFree(w3, Now(), w0.fibers[id].spec.provide);
      TransitionFinished();
    }

    /** The teardown, and then the edges to the providers; the transition is still open. */
    method Detach(id: FiberId, ghost cx: Cascade)
      requires Running(cx) && id in fibers && fibers[id].activation == Unloading && fibers[id].remaining == 0
      modifies this
      ensures Running(cx.(frames := cx.frames + 1, again := cx.again + Recalled(id, old(fibers)[id]))) && Cascaded({})
      ensures Actives(fibers) <= Actives(old(fibers))
      ensures Actives(fibers) == Actives(old(fibers)) ==> Withdrawing(fibers) < Withdrawing(old(fibers))
      ensures id in fibers && !Published(fibers[id]) && fibers[id].spec == old(fibers)[id].spec && fibers[id].consumers == {}
      ensures old(log) + [TornDown(id)] <= log && forall k | k in fibers[id].spec.provide :: k !in slots
      ensures Tracks(old(Seen()), [F.Finish(id)], Seen(), [F.NotifyKeys(fibers[id].spec.provide), F.Reenter(id)])
      decreases Actives(fibers), Withdrawing(fibers), 0
    {
      hide Sound, Leads, Calm, Spared, Moving, Satisfiable, Actives, Withdrawing, Tracks, Unbind, EdgesOf;
      ghost var w0 := Now();
      ghost var s0 := Seen();
      ghost var on := cx.(frames := cx.frames + 1, again := cx.again + Recalled(id, fibers[id]));
      ghost var first := on.(pending := cx.pending + EdgesOf(id, fibers[id].committed));
      var committed := BringDown(id, cx);
      ghost var w1 := Now();
      ghost var s1 := Seen();
      LeadsRefl(w1, first);
      DropEdges(id, committed, on);
      ghost var w3 := Now();
      LeadsTrans(w0, cx, w1, first, w3, on);
      SparedTrans(w0, w1, w3, {});
      SameMembers(w1, w3);
      NoConsumersLeft(w3, on, id);
      StillFree(w1, w3, fibers[id].spec.provide);
      LeadsShrunk(w1, w3);
      DetachedFrames(s0, s1, Seen(), id);
    }

    /** The teardown as a step: the edges to the providers are owed, and the transition is still open. */
    method BringDown(id: FiberId, ghost cx: Cascade) returns (committed: map<ServiceId, FiberId>)
      requires Running(cx) && id in fibers && fibers[id].activation == Unloading && fibers[id].remaining == 0
      modifies this`fibers, this`slots, this`log, this`marks
      ensures committed == old(fibers)[id].committed && Seen() == Finished(old(Seen()), id)
      ensures
        var on := TornCascade(cx, id, old(fibers)[id]).(frames := cx.frames + 1);
        && Sound(Now(), on) && Accounted(on.frames)
        && Leads(old(Now()), Now()) && Calm(old(Now()), Now()) && Spared(old(Now()), Now(), {})
      ensures Actives(fibers) == Actives(old(fibers)) && Withdrawing(fibers) < Withdrawing(old(fibers))
      ensures forall e | e in cx.pending :: e.0 != id
      ensures forall k1, k2 | k1 in committed && k2 in committed && k1 != k2 :: committed[k1] != committed[k2]
      ensures forall k | k in old(fibers)[id].spec.provide :: k !in slots
      ensures
        var f := old(fibers)[id];
        Tracks(old(Seen()), [F.Finish(id)], Seen(), [F.Release(id, f.committed), F.NotifyKeys(f.spec.provide), F.Reenter(id)])
    {
      hide Sound, Leads, Calm, Spared, Moving, Actives, Withdrawing, Tracks, Unbind, TornCascade;
      ghost var w0 := Now();
      committed := fibers[id].committed;
      FinishTracks(Seen(), id);
      TearDownStep(w0, cx, id);
      FinishingFacts(w0, cx, id);
      ProvisionsGone(w0, cx, id);
      RecordTeardown(id);
      SoundFrames(Now(), TornCascade(cx, id, w0.fibers[id]), cx.frames + 1);
    }

    /** The activation's effects run: its provisions are unbound, and the fiber is inactive. */
    method RecordTeardown(id: FiberId)
      requires id in fibers
      modifies this`fibers, this`slots, this`log, this`marks
      ensures Seen() == Finished(old(Seen()), id)
    {
      slots := Unbind(slots, id);
      log := log + [TornDown(id)];
      fibers := fibers[id := fibers[id].(activation := Inactive, committed := map[], state := Inactive)];
      marks := marks + [F.Cleaned(id)];
    }

    /** Erases a finishing fiber from its providers' consumer sets, releasing their guards. */
    method DropEdges(id: FiberId, committed: map<ServiceId, FiberId>, ghost cx: Cascade)
      requires Sound(Now(), cx.(pending := cx.pending + EdgesOf(id, committed))) && Accounted(cx.frames)
      requires forall e | e in cx.pending :: e.0 != id
      requires forall k1, k2 | k1 in committed && k2 in committed && k1 != k2 :: committed[k1] != committed[k2]
      modifies this
      ensures Running(cx) && Cascaded({})
      ensures Tracks(old(Seen()), [F.Release(id, committed)], Seen(), [])
      decreases Actives(fibers), Withdrawing(fibers), 3
    {
      hide Sound, Leads, Calm, Spared, Moving, Satisfiable, Actives, Withdrawing, EdgesOf, OwedFor, Published, Dropped, Tracks, Under;
      ghost var w1 := Now();
      ghost var s1 := Seen();
      TracksRefl(s1, [F.Release(id, committed)]);
      UnderAll(committed);
      OwedForAll(id, committed);
      var todo := committed.Keys;
      ghost var now := cx.(pending := cx.pending + OwedFor(id, committed, todo));
      ghost var first := now;
      LeadsRefl(w1, first);
      while todo != {}
        invariant todo <= committed.Keys
        invariant now == cx.(pending := cx.pending + OwedFor(id, committed, todo))
        invariant Running(now) && Cascaded({})
        invariant Tracks(s1, [F.Release(id, committed)], Seen(), [F.Release(id, Under(committed, todo))])
      {
        F.HasFirst(todo);
        var k :| k in todo && F.IsFirst(todo, k);
        var p := committed[k];
        OwedForNext(cx.pending, id, committed, todo, k);
        ghost var w := Now();
        ghost var was := now;
        DropStep(w, was, id, p);
        DropIdle(w, was, id, p);
        ghost var s := Seen();
        ReleaseTracks(s, id, committed, todo, k);
        now := was.(pending := was.pending - {(id, p)});
        EraseConsumer(p, id);
        ghost var w2 := Now();
        ghost var s2 := Seen();
        LeadsTrans(w1, first, w, was, w2, now);
        SparedTrans(w1, w, w2, {});
        LeadsShrunk(w1, w2);
        MaybeFinishUnload(p, now);
        LeadsTrans(w1, first, w2, now, Now(), now);
        SparedTrans(w1, w2, Now(), {});
        ReleasedFrames(s, s2, Seen(), id, committed, todo, k);
        TracksTrans(s1, [F.Release(id, committed)], s, [F.Release(id, Under(committed, todo))],
                    Seen(), [F.Release(id, Under(committed, todo - {k}))]);
        todo := todo - {k};
      }
      ReleaseDone(Seen(), id, committed);
      TracksTrans(s1, [F.Release(id, committed)], Seen(), [F.Release(id, Under(committed, {}))], Seen(), []);
      OwedForNone(cx.pending, id, committed);
    }

    method EraseConsumer(p: FiberId, c: FiberId)
      requires p in fibers && c in fibers[p].consumers
      requires fibers[p].remaining > 0 ==> fibers[p].state == Unloading
      modifies this`fibers
      ensures fibers == old(fibers)[p := Dropped(old(fibers)[p], c)]
      ensures fibers[p].state == old(fibers)[p].state && fibers[p].activation == old(fibers)[p].activation
    {
      fibers := fibers[p := fibers[p].(consumers := fibers[p].consumers - {c})];
      if fibers[p].remaining > 0 {
        assert fibers[p].state == Unloading;
        fibers := fibers[p := fibers[p].(remaining := fibers[p].remaining - 1)];
      }
    }

    /** The end of finish_unload: wake the fibers declaring this one's keys, then this one. */
    method FanOut(id: FiberId, ghost cx: Cascade)
      requires Running(cx) && id in fibers && !Published(fibers[id]) && cx.frames > 0
      requires forall k | k in fibers[id].spec.provide :: k !in slots
      modifies this
      ensures Running(cx.(again := cx.again - {id})) && Cascaded({})
      ensures old(inFlight) > 0 && inFlight > 0 && !idleOpen
      ensures Tracks(old(Seen()), [F.NotifyKeys(old(fibers)[id].spec.provide), F.Reenter(id)], Seen(), [])
      decreases Actives(fibers), Withdrawing(fibers), 5
    {
      hide Sound, Leads, Calm, Spared, Moving, Satisfiable, Actives, Withdrawing, Unheld, Tracks, F.IsFirst;
      ghost var w0 := Now();
      ghost var s0 := Seen();
      LeadsRefl(w0, cx);
      var provide := fibers[id].spec.provide;
      TracksRefl(s0, [F.NotifyKeys(provide)]);
      var todo := provide;
      while todo != {}
        invariant todo <= provide
        invariant Running(cx) && Cascaded({})
        invariant Tracks(s0, [F.NotifyKeys(provide)], Seen(), [F.NotifyKeys(todo)])
      {
        F.HasFirst(todo);
        var k :| k in todo && F.IsFirst(todo, k);
        ghost var w := Now();
        ghost var s := Seen();
        SlotGone(w0, w, k);
        UnboundIsUnheld(w, cx, k);
        LeadsShrunk(w0, w);
        Notify(k, cx);
        SoundWeaken(Now(), cx.(dirty := cx.dirty - Registered(consumersOf, k)), cx.dirty);
        LeadsTrans(w0, cx, w, cx, Now(), cx);
        SparedTrans(w0, w, Now(), {});
        NotifyKeysTurn(s, todo, k, Seen());
        TracksTrans(s0, [F.NotifyKeys(provide)], s, [F.NotifyKeys(todo)], Seen(), [F.NotifyKeys(todo - {k})]);
        todo := todo - {k};
      }
      ghost var w1 := Now();
      ghost var s1 := Seen();
      NotifyKeysDone(s1);
      TracksTrans(s0, [F.NotifyKeys(provide)], s1, [F.NotifyKeys({})], s1, []);
      SameMembers(w0, w1);
      ReenterTracks(s1, id);
      if fibers[id].reactivate > 0 {
        ghost var due := cx.(again := cx.again - {id}, dirty := cx.dirty + {id});
        ReenterStep(w1, cx, id);
        ClearFlagStep(w1, due, id);
        fibers := fibers[id := fibers[id].(reactivate := 0)];
        ghost var w2 := Now();
        ShapeOf(w2, due, id);
        LeadsTrans(w0, cx, w1, cx, w2, due);
        SparedTrans(w0, w1, w2, {});
        LeadsShrunk(w0, w2);
        ghost var s2 := Seen();
        Evaluate(id, due);
        TracksTrans(s1, [F.Reenter(id)], s2, [F.Eval(id)], Seen(), []);
        SoundWeaken(Now(), due.(dirty := due.dirty - {id}), cx.dirty);
        LeadsTrans(w0, cx, w2, due, Now(), cx.(again := cx.again - {id}));
        SparedTrans(w0, w2, Now(), {});
      } else {
        NotAgain(w1, cx, id);
      }
      TracksBoth(s0, [F.NotifyKeys(provide)], s1, [F.Reenter(id)], Seen());
      assert [F.NotifyKeys(provide)] + [F.Reenter(id)] == [F.NotifyKeys(provide), F.Reenter(id)];
    }

    static function Registered(index: map<ServiceId, set<FiberId>>, k: ServiceId): set<FiberId> {
      if k in index then index[k] else {}
    }

    /** Re-evaluates every fiber that declares the key. */
    method Notify(k: ServiceId, ghost cx: Cascade)
      requires Running(cx) && Unheld(Now(), k)
      modifies this
      ensures Running(cx.(dirty := cx.dirty - Registered(consumersOf, k))) && Cascaded({})
      ensures Tracks(old(Seen()), [F.NotifyEach(F.Listeners(ImageOf(old(Seen())), k))], Seen(), [])
      decreases Actives(fibers), Withdrawing(fibers), 4
    {
      hide Sound, Leads, Calm, Spared, Moving, Satisfiable, Actives, Withdrawing, Unheld, Tracks, ImageOf;
      ghost var w0 := Now();
      ghost var s0 := Seen();
      LeadsRefl(w0, cx);
      Listening(s0, cx, k);
      NotifyEachDone(s0);
      if k !in consumersOf {
        assert cx.(dirty := cx.dirty - {}) == cx;
        return;
      }
      var ids := consumersOf[k];
      TracksRefl(s0, [F.NotifyEach(ids)]);
      var todo := ids;
      ghost var dirty := cx.dirty;
      while todo != {}
        invariant todo <= ids
        invariant dirty == cx.dirty - (ids - todo)
        invariant Running(cx.(dirty := dirty)) && Cascaded({})
        invariant Unheld(Now(), k) && consumersOf == old(consumersOf)
        invariant Tracks(s0, [F.NotifyEach(ids)], Seen(), [F.NotifyEach(todo)])
      {
        HasLeast(todo);
        var c :| c in todo && IsLeast(todo, c);
        ghost var w := Now();
        ghost var s := Seen();
        ghost var was := cx.(dirty := dirty);
        Notifiable(w, was, k, c);
        LeadsShrunk(w0, w);
        if c in fibers {
          Evaluate(c, was);
        }
        NotifyEachTurn(s, todo, c, Seen());
        TracksTrans(s0, [F.NotifyEach(ids)], s, [F.NotifyEach(todo)], Seen(), [F.NotifyEach(todo - {c})]);
        dirty := dirty - {c};
        LeadsTrans(w0, cx, w, was, Now(), cx.(dirty := dirty));
        SparedTrans(w0, w, Now(), {});
        UnheldKept(w, Now(), k);
        SameMembers(w, Now());
        todo := todo - {c};
      }
      assert dirty == cx.dirty - ids;
      NotifyEachDone(Seen());
      TracksTrans(s0, [F.NotifyEach(ids)], Seen(), [F.NotifyEach({})], Seen(), []);
    }
  
    // -------------------------------------------------------------------------------------------
    // Handlers

    /** Installs a component and evaluates it once. */
    method Mount(c: Component) returns (id: FiberId)
      requires Valid() && Admissible(c)
      requires forall p | p in fibers :: fibers[p].spec.provide !! c.provide
      modifies this
      ensures Valid()
      ensures id !in old(fibers) && id in fibers && fibers == old(fibers)[id := fibers[id]]
      ensures slots == old(slots) && log == old(log)
      ensures Reevaluated(slots, id, Fresh(c), fibers[id])
      ensures id == old(nextId) && nextId == id + 1 && Tracks(old(Seen()), [F.Install(id, c)], Seen(), [])
      ensures Astray(Now()) <= Astray(old(Now()))
    {
      hide Sound, Moving, Withdrawing, Leads, Calm, Spared, Satisfiable, Resolution, Tracks, Astray, Attended;
      ghost var w0, s0 := Now(), Seen();
      ghost var watched := Attended(w0, {});
      Attend(w0, {});
      MountStep(w0, c, watched);
      id := nextId;
      nextId := nextId + 1;
      consumersOf := Enrolled(consumersOf, id, c);
      fibers := fibers[id := Fresh(c)];
      ghost var w := Now();
      ghost var s := Seen();
      InstallTracks(s0, id, c, s);
      ghost var later := Watching(watched + {id});
      Evaluate(id, later.(dirty := {id}));
      TracksTrans(s0, [F.Install(id, c)], s, [F.Eval(id)], Seen(), []);
      CalmEmpty(w, Now());
      assert later.(dirty := {id} - {id}) == later;
      AttendedStay(w0, {}, Now(), {id});
    }

    /** The plugin publishes a declared key while its apply runs; false is the undeclared error. */
    method Provide(id: FiberId, k: ServiceId, available: bool) returns (declared: bool)
      requires Valid() && id in fibers && fibers[id].activation == Loading
      modifies this`slots
      ensures Valid()
      ensures declared <==> k in fibers[id].spec.provide
      ensures slots == if declared then old(slots)[k := Binding(id, Landing, available)] else old(slots)
      ensures Astray(Now()) <= Astray(old(Now()))
      ensures available && Faithful(old(Seen())) ==> Faithful(Seen()) && ImageOf(Seen()) == ImageOf(old(Seen()))
    {
      hide Sound, Moving, Withdrawing, Faithful, ImageOf, Astray, Attended;
      declared := k in fibers[id].spec.provide;
      if declared {
        ghost var w0 := Now();
        ghost var watched := Attended(w0, {});
        Attend(w0, {});
        ProvideUnseen(Seen(), id, k);
        ProvideStep(Now(), id, k, available, watched);
        slots := slots[k := Binding(id, Landing, available)];
        assert watched + {} == watched;
        AttendedStay(w0, {}, Now(), {});
      }
    }

    /** Makes an unavailable provision available and re-evaluates its dependents; never the reverse. */
    method SignalAvailability(k: ServiceId, provider: FiberId, available: bool) returns (r: Promotion)
      requires Valid()
      modifies this
      ensures Valid()
      ensures r == if k !in old(slots) then NoBinding
                   else if old(slots)[k].provider != provider then NotTheProvider
                   else if !available then CannotDemote
                   else if old(slots)[k].available then AlreadyAvailable
                   else Promoted
      ensures r != Promoted ==> Now() == old(Now())
      ensures r == Promoted ==>
        var w := old(Now()).(slots := old(slots)[k := old(slots)[k].(available := true)]);
        Leads(w, Now()) && Spared(w, Now(), {})
      ensures Astray(Now()) <= Astray(old(Now()))
    {
      hide Sound, Moving, Withdrawing, Leads, Calm, Spared, Satisfiable, Unheld, Astray, Attended;
      if k !in slots {
        return NoBinding;
      }
      if slots[k].provider != provider {
        return NotTheProvider;
      }
      if !available {
        return CannotDemote;
      }
      if slots[k].available {
        return AlreadyAvailable;
      }
      ghost var w0 := Now();
      ghost var watched := Attended(w0, {});
      Attend(w0, {});
      PromoteStep(w0, k, watched);
      PromoteUnheld(Now(), k);
      slots := slots[k := slots[k].(available := true)];
      ghost var w := Now();
      Notify(k, Watching(watched).(dirty := Woken(consumersOf, {k})));
      WokenBy(w.index, k);
      SameMembers(w, Now());
      CalmEmpty(w, Now());
      assert Watching(watched).(dirty := {}) == Watching(watched);
      assert watched + {} == watched;
      AttendedStay(w0, {}, Now(), {});
      return Promoted;
    }

    /** The completion of a fiber's apply. */
    method ApplyCompleted(id: FiberId, raised: bool)
      requires Valid()
      modifies this
      ensures Valid()
      ensures id !in old(fibers) || !InMotion(old(fibers)[id]) ==> Now() == old(Now())
      ensures id in old(fibers) && InMotion(old(fibers)[id]) ==> Completes(old(Now()), Now(), id, raised)
      ensures id in old(fibers) && InMotion(old(fibers)[id]) ==> Recorded(old(Now()), Now(), id, raised)
      ensures Heads(old(Seen()), id) && Provided(old(slots), id, old(fibers)[id]) ==> Tracks(old(Seen()), [F.Next(raised)], Seen(), [])
      ensures Astray(Now()) <= Astray(old(Now())) + {id}
      ensures id in old(fibers) && InMotion(old(fibers)[id]) ==> (id in Astray(Now()) <==> Strays(old(Now()), id, raised))
    {
      hide Sound, Moving, Withdrawing, Leads, Calm, Spared, Satisfiable, Unbind, ViewLive, Resolution, Tracks, Astray, Attended, Strays, Recorded;
      if id !in fibers || (fibers[id].state != Loading && fibers[id].state != Unloading) {
        return;
      }
      ghost var w0 := Now();
      ghost var s0 := Seen();
      queue := Dequeued(queue, id);
      marks := marks + [F.Ran(id)];
      InFlightShape(w0, id);
      var live := ProvidersStillActive(id);
      var stale := !live;
      var cancelled := fibers[id].stopRequested;
      if raised || cancelled || stale || fibers[id].state == Unloading {
        Land(id, raised, stale, s0);
        LandedStray(w0, Now(), id, raised);
        OutcomeRecorded(w0, Now(), id, raised);
        return;
      }
      Publish(id, s0);
      OutcomeRecorded(w0, Now(), id, raised);
      PublishedSpec(w0, Now(), id);
      PublishedStray(w0, Now(), id);
    }

    /** The apply has been taken off the strand's queue. */
    ghost predicate Popped(s: Sight, id: FiberId)
      reads this
    {
      s.world == Now() && queue == Dequeued(s.queue, id) && marks == s.marks + [F.Ran(id)]
    }

    /** An apply that does not publish: record the outcome, tear down, retry a stale load. */
    method Land(id: FiberId, raised: bool, stale: bool, ghost s: Sight)
      requires Valid() && id in fibers && InMotion(fibers[id]) && Popped(s, id)
      requires stale <==> !ViewLive(slots, fibers[id])
      requires raised || stale || fibers[id].state == Unloading
      modifies this
      ensures Valid()
      ensures id in fibers
      ensures Now() == old(Now()).(fibers := old(fibers)[id := fibers[id]], slots := Unbind(old(slots), id))
      ensures
        var g := Landed(old(fibers)[id], raised);
        if stale && g.reactivate >= 0 then Reevaluated(slots, id, g, fibers[id]) else fibers[id] == g
      ensures Heads(s, id) ==> Tracks(s, [F.Next(raised)], Seen(), [])
      ensures Astray(Now()) <= Astray(old(Now())) + {id}
    {
      hide Sound, Moving, Withdrawing, Leads, Calm, Spared, Satisfiable, Unbind, ViewLive, Resolution, Tracks, Heads, Reevaluated, Attended, Astray;
      ghost var w0 := Now();
      ghost var watched := Attended(w0, {id});
      TouchDown(id, raised, s);
      ghost var s1 := Seen();
      var reactivateStale := stale && fibers[id].reactivate >= 0;
      ghost var w1 := Now();
      ghost var later := Watching(watched);
      if reactivateStale {
        Evaluate(id, later.(dirty := {id}, frames := 1));
        if Heads(s, id) {
          TracksTrans(s, [F.Next(raised)], s1, [F.Eval(id)], Seen(), []);
        }
        CalmEmpty(w1, Now());
        assert later.(dirty := {id} - {id}, frames := 1) == later.(frames := 1);
      } else {
        LandedStays(w0, w1, id, raised);
      }
      Conclude(w0, id);
    }

    /** The outcome is recorded, and the fiber is still to be reconsidered. */
    method TouchDown(id: FiberId, raised: bool, ghost s: Sight)
      requires Valid() && id in fibers && InMotion(fibers[id]) && Popped(s, id)
      requires raised || !ViewLive(slots, fibers[id]) || fibers[id].state == Unloading
      modifies this`fibers, this`slots, this`marks
      ensures Now() == old(Now()).(fibers := old(fibers)[id := Landed(old(fibers)[id], raised)], slots := Unbind(old(slots), id))
      ensures Running(Watching(Attended(old(Now()), {id})).(dirty := {id}, frames := 1)) && Withdrawing(fibers) == {}
      ensures
        var again := !ViewLive(old(slots), old(fibers)[id]) && old(fibers)[id].reactivate >= 0;
        Heads(s, id) ==> Tracks(s, [F.Next(raised)], Seen(), if again then [F.Eval(id)] else [])
    {
      hide Sound, Moving, Withdrawing, Unbind, ViewLive, Tracks, Heads, Attended, Dequeued;
      ghost var w0 := Now();
      ghost var watched := Attended(w0, {id});
      Attend(w0, {id});
      InFlightShape(w0, id);
      LandStep(w0, id, raised, watched);
      RecordLanding(id, raised);
      if Heads(s, id) {
        LandTracks(s, id, raised);
        LandedNow(s, Seen(), id, raised);
      }
      SoundFrames(Now(), Watching(watched).(dirty := {id}), 1);
    }

    /** The transition of a completed apply closes. */
    method Conclude(ghost w0: World, ghost id: FiberId)
      requires Running(Watching(Attended(w0, {id})).(frames := 1)) && Withdrawing(fibers) == {} && fibers.Keys == w0.fibers.Keys
      modifies this`inFlight, this`idleOpen
      ensures Valid() && Astray(Now()) <= Astray(w0) + {id}
    {
      hide Sound, Moving, Withdrawing, Astray, Attended;
      ghost var watched := Attended(w0, {id});
      SoundFrames(Now(), Watching(watched).(frames := 1), 0);
      assert watched + {} == watched;
      AttendedStay(w0, {id}, Now(), {});
      TransitionFinished();
    }

    method RecordLanding(id: FiberId, raised: bool)
      requires id in fibers
      modifies this`fibers, this`slots, this`marks
      ensures fibers == old(fibers)[id := Landed(old(fibers)[id], raised)] && slots == Unbind(old(slots), id)
      ensures marks == old(marks) + [F.Cleaned(id)]
    {
      marks := marks + [F.Cleaned(id)];
      if fibers[id].error == None {
        if raised {
          fibers := fibers[id := fibers[id].(error := Some(Raised), applyFailed := true)];
        } else if fibers[id].stopRequested {
          fibers := fibers[id := fibers[id].(error := Some(Cancelled))];
        }
      }
      slots := Unbind(slots, id);
      fibers := fibers[id := fibers[id].(activation := Inactive, state := Inactive, committed := map[])];
    }

    /** Publication: flip the provisions, enlist with the providers, wake the dependents. */
    method Publish(id: FiberId, ghost s: Sight)
      requires Valid() && id in fibers && fibers[id].state == Loading && ViewLive(slots, fibers[id]) && Popped(s, id)
      modifies this
      ensures Valid()
      ensures Leads(AfterPublish(old(Now()), id), Now()) && Spared(AfterPublish(old(Now()), id), Now(), {})
      ensures id in fibers && fibers[id].activation == Active
      ensures old(fibers)[id].spec.provide == {} ==> Now() == AfterPublish(old(Now()), id)
      ensures Heads(s, id) && Provided(s.world.slots, id, s.world.fibers[id]) ==> Tracks(s, [F.Next(false)], Seen(), [])
      ensures Astray(Now()) <= Astray(old(Now())) + {id}
    {
      hide Sound, Moving, Withdrawing, Leads, Calm, Spared, Satisfiable, Unheld, ViewLive, Tracks, Provided, AfterPublish,
           Heads, Dequeued, Woken, Astray, Attended;
      ghost var w0 := Now();
      ghost var watched := Attended(w0, {id});
      ghost var w1 := AfterPublish(w0, id);
      var provide := fibers[id].spec.provide;
      GoPublic(id, s);
      ghost var s1 := Seen();
      ghost var later := Watching(watched);
      NotifyAll(provide, later.(dirty := Woken(consumersOf, provide), frames := 1));
      if Heads(s, id) && Provided(w0.slots, id, w0.fibers[id]) {
        TracksTrans(s, [F.Next(false)], s1, [F.NotifyKeys(provide)], Seen(), []);
      }
      assert later.(frames := 1, dirty := {}) == later.(frames := 1);
      PublicationHolds(w0, w1, Now(), id);
      PublishedMembers(w0, id);
      SameMembers(w1, Now());
      Conclude(w0, id);
    }

    /** The publication itself: nobody has been woken yet. */
    method GoPublic(id: FiberId, ghost s: Sight)
      requires Valid() && id in fibers && fibers[id].state == Loading && ViewLive(slots, fibers[id]) && Popped(s, id)
      modifies this`fibers, this`slots, this`stamps, this`clock, this`log
      ensures Now() == AfterPublish(old(Now()), id) && Withdrawing(fibers) == {}
      ensures
        var provide := old(fibers)[id].spec.provide;
        && Running(Watching(Attended(old(Now()), {id})).(dirty := Woken(consumersOf, provide), frames := 1))
        && (forall k | k in provide :: Unheld(Now(), k))
        && (Heads(s, id) && Provided(old(slots), id, old(fibers)[id]) ==> Tracks(s, [F.Next(false)], Seen(), [F.NotifyKeys(provide)]))
    {
      hide Sound, Moving, Withdrawing, Unheld, ViewLive, Tracks, Provided, AfterPublish, Heads, Dequeued, Woken, Attended;
      ghost var w0 := Now();
      ghost var watched := Attended(w0, {id});
      Attend(w0, {id});
      ghost var w1 := AfterPublish(w0, id);
      if Heads(s, id) && Provided(slots, id, fibers[id]) {
        PublishTracks(s, id);
        PublishedNow(s, id, queue);
      }
      InFlightShape(w0, id);
      PublishStep(w0, id, watched);
      PublishedIndex(w0, id);
      forall k | k in fibers[id].spec.provide ensures Unheld(w1, k) {
        PublishUnheld(w0, id, k);
      }
      SoundFrames(w1, Watching(watched).(dirty := Woken(consumersOf, fibers[id].spec.provide)), 1);
      RecordPublication(id);
    }

    /** The provisions serve, the fiber is active and counts among its providers' consumers. */
    method RecordPublication(id: FiberId)
      requires id in fibers && fibers[id].committed.Values !! {id}
      requires forall k | k in slots && slots[k].provider == id :: k in fibers[id].spec.provide && slots[k].state == Landing
      modifies this`fibers, this`slots, this`stamps, this`clock, this`log
      ensures Now() == AfterPublish(old(Now()), id)
    {
      hide ServeSlots, PublishedPool;
      ghost var fs := fibers;
      ServeProvisions(id);
      fibers := fibers[id := fibers[id].(state := Active, activation := Active)];
      EnlistWithProviders(id, fs);
      stamps, clock, log := stamps[id := clock], clock + 1, log + [PublishedView(id, fs[id].committed)];
    }

    /** The closing loop of publish: the transition is still open throughout. */
    method NotifyAll(keys: set<ServiceId>, ghost cx: Cascade)
      requires Running(cx) && cx.frames > 0 && cx.dirty <= Woken(consumersOf, keys)
      requires forall k | k in keys :: Unheld(Now(), k)
      modifies this
      ensures Running(cx.(dirty := {})) && Cascaded({})
      ensures old(inFlight) > 0 && inFlight > 0 && !idleOpen
      ensures keys == {} ==> Now() == old(Now())
      ensures Tracks(old(Seen()), [F.NotifyKeys(keys)], Seen(), [])
    {
      hide Sound, Moving, Withdrawing, Leads, Calm, Spared, Unheld, Tracks, F.IsFirst;
      ghost var w0 := Now();
      ghost var s0 := Seen();
      LeadsRefl(w0, cx);
      TracksRefl(s0, [F.NotifyKeys(keys)]);
      var todo := keys;
      ghost var dirty := cx.dirty;
      while todo != {}
        invariant todo <= keys
        invariant dirty <= Woken(consumersOf, todo)
        invariant Running(cx.(dirty := dirty)) && Cascaded({}) && consumersOf == old(consumersOf)
        invariant forall k | k in todo :: Unheld(Now(), k)
        invariant keys == {} ==> Now() == w0
        invariant Tracks(s0, [F.NotifyKeys(keys)], Seen(), [F.NotifyKeys(todo)])
      {
        F.HasFirst(todo);
        var k :| k in todo && F.IsFirst(todo, k);
        ghost var w := Now();
        ghost var s := Seen();
        ghost var was := cx.(dirty := dirty);
        Notify(k, was);
        SameMembers(w, Now());
        dirty := dirty - Registered(consumersOf, k);
        LeadsTrans(w0, cx, w, was, Now(), cx.(dirty := dirty));
        SparedTrans(w0, w, Now(), {});
        forall j | j in todo ensures Unheld(Now(), j) {
          UnheldKept(w, Now(), j);
        }
        NotifyKeysTurn(s, todo, k, Seen());
        TracksTrans(s0, [F.NotifyKeys(keys)], s, [F.NotifyKeys(todo)], Seen(), [F.NotifyKeys(todo - {k})]);
        todo := todo - {k};
      }
      assert dirty == {};
      NotifyKeysDone(Seen());
      TracksTrans(s0, [F.NotifyKeys(keys)], Seen(), [F.NotifyKeys({})], Seen(), []);
    }

    method ServeProvisions(id: FiberId)
      requires id in fibers
      requires forall k | k in slots && slots[k].provider == id :: k in fibers[id].spec.provide && slots[k].state == Landing
      modifies this`slots
      ensures slots == ServeSlots(old(slots), id)
    {
      var todo := fibers[id].spec.provide;
      while todo != {}
        invariant todo <= fibers[id].spec.provide
        invariant slots.Keys == old(slots).Keys
        invariant forall k | k in slots :: slots[k] == if slots[k].provider == id && k !in todo then old(slots)[k].(state := Serving) else old(slots)[k]
      {
        var k :| k in todo;
        if k in slots && slots[k].provider == id {
          assert slots[k].state == Landing;
          slots := slots[k := slots[k].(state := Serving)];
        }
        todo := todo - {k};
      }
    }

    method EnlistWithProviders(id: FiberId, ghost fs: Pool)
      requires id in fs && fs[id].committed.Values !! {id}
      requires fibers == fs[id := fs[id].(state := Active, activation := Active)]
      modifies this`fibers
      ensures fibers == PublishedPool(fs, id)
    {
      hide PublishedPool;
      var committed := fibers[id].committed;
      var todo := committed.Keys;
      EnlistedNone(fs, id);
      while todo != {}
        invariant todo <= committed.Keys && committed == fs[id].committed
        invariant fibers == Enlisted(fs, id, committed.Keys - todo)
      {
        var k :| k in todo;
        var p := committed[k];
        assert p in committed.Values;
        EnlistedNext(fs, id, committed.Keys - todo, k);
        assert committed.Keys - (todo - {k}) == committed.Keys - todo + {k};
        if p in fibers {
          fibers := fibers[p := fibers[p].(consumers := fibers[p].consumers + {id})];
        }
        todo := todo - {k};
      }
      assert committed.Keys - {} == committed.Keys;
      EnlistedAll(fs, id);
    }

    /** A host-requested removal of a fiber that is up or in motion. */
    method Retire(id: FiberId)
      requires Valid()
      modifies this
      ensures Valid()
      ensures id !in old(fibers) || old(fibers)[id].state == Inactive ==> Now() == old(Now())
      ensures id in old(fibers) && InMotion(old(fibers)[id]) ==>
        && id in fibers && Now() == old(Now()).(fibers := old(fibers)[id := fibers[id]])
        && fibers[id] == if old(fibers)[id].state == Loading then Diverted(Retired(old(fibers)[id])) else Retired(old(fibers)[id])
      ensures id in old(fibers) && old(fibers)[id].state == Active ==>
        var w := old(Now()).(fibers := old(fibers)[id := Retired(old(fibers)[id])]);
        && Leads(w, Now()) && Spared(w, Now(), Dependents(old(fibers), id))
        && (forall x | x in Dependents(old(fibers), id) :: x in fibers && !Published(fibers[x]))
      ensures id !in old(fibers) || old(fibers)[id].state == Inactive ==> Seen() == old(Seen())
      ensures id in old(fibers) && old(fibers)[id].state != Inactive ==> Tracks(old(Seen()), [F.Retire(id)], Seen(), [])
      ensures nextId == old(nextId)
      ensures Astray(Now()) <= Astray(old(Now()))
    {
      hide Sound, Moving, Withdrawing, Leads, Calm, Spared, Satisfiable, Dependents, Tracks, Astray, Attended;
      if id !in fibers || fibers[id].state == Inactive {
        return;
      }
      Withdraw(id);
    }

    /** Marks a fiber retired, whatever its state, and unloads it behind its dependents. */
    method Withdraw(id: FiberId)
      requires Valid() && id in fibers
      modifies this
      ensures Valid()
      ensures old(fibers)[id].state == Inactive ==> Now() == old(Now()).(fibers := old(fibers)[id := Retired(old(fibers)[id])])
      ensures InMotion(old(fibers)[id]) ==>
        && id in fibers && Now() == old(Now()).(fibers := old(fibers)[id := fibers[id]])
        && fibers[id] == if old(fibers)[id].state == Loading then Diverted(Retired(old(fibers)[id])) else Retired(old(fibers)[id])
      ensures old(fibers)[id].state == Active ==>
        var w := old(Now()).(fibers := old(fibers)[id := Retired(old(fibers)[id])]);
        && Leads(w, Now()) && Spared(w, Now(), Dependents(old(fibers), id))
        && (forall x | x in Dependents(old(fibers), id) :: x in fibers && !Published(fibers[x]))
      ensures nextId == old(nextId) && Tracks(old(Seen()), [F.Retire(id)], Seen(), [])
      ensures Astray(Now()) <= Astray(old(Now()))
    {
      hide Sound, Moving, Withdrawing, Leads, Calm, Spared, Satisfiable, Dependents, Tracks, Astray, Attended;
      ghost var w0 := Now();
      ghost var s0 := Seen();
      ghost var watched := Attended(w0, {});
      MarkRetired(id);
      ghost var w := Now();
      ghost var s := Seen();
      if fibers[id].state == Active {
        SameDependents(w0.fibers, id);
        Fall(id, watched);
        SameMembers(w, Now());
      } else {
        Dismiss(id, watched);
      }
      TracksTrans(s0, [F.Retire(id)], s, [F.Unload(id, false)], Seen(), []);
      assert watched + {} == watched;
      AttendedStay(w0, {}, Now(), {});
    }

    /** A retired fiber at rest stays there, and a pending apply is diverted. */
    method Dismiss(id: FiberId, ghost watched: set<FiberId>)
      requires Running(Watching(watched)) && Sound(Now(), REST) && Withdrawing(fibers) == {}
      requires id in fibers && fibers[id].state != Active && fibers[id].reactivate == -1
      modifies this
      ensures Running(Watching(watched)) && Withdrawing(fibers) == {}
      ensures
        var f := old(fibers)[id];
        Now() == old(Now()).(fibers := old(fibers)[id := if f.state == Loading then Diverted(f) else f])
      ensures Tracks(old(Seen()), [F.Unload(id, false)], Seen(), [])
    {
      hide Sound, Moving, Withdrawing, Satisfiable, Tracks;
      ghost var w := Now();
      ShapeOf(w, Watching(watched), id);
      if InMotion(fibers[id]) {
        InFlightShape(w, id);
      }
      BeginUnload(id, false, Watching(watched), {});
      NotWithdrawing(w.fibers, id, fibers[id]);
    }

    /** A retired fiber that is active goes down behind its dependents. */
    method Fall(id: FiberId, ghost watched: set<FiberId>)
      requires Running(Watching(watched)) && Sound(Now(), REST) && Withdrawing(fibers) == {}
      requires id in fibers && fibers[id].state == Active && fibers[id].reactivate == -1
      modifies this
      ensures Running(Watching(watched)) && Withdrawing(fibers) == {}
      ensures Leads(old(Now()), Now()) && Spared(old(Now()), Now(), Dependents(old(fibers), id))
      ensures forall x | x in Dependents(old(fibers), id) :: x in fibers && !Published(fibers[x])
      ensures Tracks(old(Seen()), [F.Unload(id, false)], Seen(), [])
    {
      hide Sound, Moving, Withdrawing, Leads, Calm, Spared, Satisfiable, Dependents, Tracks;
      ghost var w := Now();
      ghost var later := Watching(watched);
      ShapeOf(w, later, id);
      DependentsClosed(w.fibers, id);
      RootUnloadable(w, id, watched, Dependents(w.fibers, id));
      BeginUnload(id, false, later, Dependents(w.fibers, id));
      SameMembers(w, Now());
      CalmEmpty(w, Now());
      assert later.(dirty := later.dirty - {id}) == later;
      DependentsFall(w, Now(), later, id);
    }

    method MarkRetired(id: FiberId)
      requires Valid() && id in fibers
      modifies this`fibers
      ensures fibers == old(fibers)[id := Retired(old(fibers)[id])] && Withdrawing(fibers) == {}
      ensures Running(Watching(Attended(old(Now()), {}))) && Sound(Now(), REST)
      ensures Tracks(old(Seen()), [F.Retire(id)], Seen(), [F.Unload(id, false)])
    {
      hide Sound, Moving, Withdrawing, Tracks, Attended;
      ghost var w0 := Now();
      ghost var watched := Attended(w0, {});
      Attend(w0, {});
      RetireTracks(Seen(), id);
      RetireFlagStep(w0, id, watched);
      fibers := fibers[id := fibers[id].(reactivate := -1)];
      Unwatch(Now(), Watching(watched), {});
    }

    /** Drops the record of an inactive fiber, once its owner has waited for it. */
    method Erase(id: FiberId)
      requires Valid() && id in fibers && fibers[id].state == Inactive
      modifies this
      ensures Valid()
      ensures fibers == old(fibers) - {id} && slots == old(slots) && log == old(log) && queue == old(queue)
      ensures nextId == old(nextId) && Tracks(old(Seen()), [F.Erase(id)], Seen(), [])
      ensures Astray(Now()) <= Astray(old(Now()))
    {
      hide Sound, Moving, Withdrawing, Tracks, Astray, Attended;
      ghost var w0 := Now();
      ghost var s0 := Seen();
      ghost var watched := Attended(w0, {});
      Attend(w0, {});
      ShapeOf(w0, REST, id);
      EraseStep(w0, id, watched);
      fibers := fibers - {id};
      consumersOf := Unindexed(consumersOf, id);
      EraseTracks(s0, id, Seen());
      assert watched + {} == watched;
      AttendedStay(w0, {}, Now(), {});
    }
  }
}
