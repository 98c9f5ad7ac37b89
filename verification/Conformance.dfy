/**
  The engine against the reference machine (proof/conformance/conformance_test.cpp): both are driven
  through the same mounts and retirements, each to quiescence before the next, and end up alike.

  Here completions return in the order their applies were spawned, and sets are iterated in ascending
  order, as both programs do.
 */
module Conformance {
  import opened Basics
  import opened Fibers
  import opened FiberSteps
  import opened Cascades
  import opened Handlers
  import opened Engine
  import opened EngineImage
  import opened EngineTheorems
  import opened Quiescence
  import opened OracleMachine
  import O = Oracle
  import OI = OracleImage
  import OS = OracleMeasure
  import OH = OracleHandlers
  import OO = OracleOrder
  import F = Frames
  import FR = FrameRuns

  // ---------------------------------------------------------------------------------------------
  // Draining in order

  /** Runs the pending applies in the order they were spawned, until none is left. */
  method DrainInOrder(r: Runtime, raises: set<FiberId>)
    requires r.Valid() && Staffed(r.Now(), raises) && Faithful(r.Seen())
    modifies r
    ensures r.Valid() && r.inFlight == 0 && r.queue == [] && r.nextId == old(r.nextId)
    ensures Staffed(r.Now(), raises) && SameTerms(old(r.Now()), r.Now(), raises)
    ensures Faithful(r.Seen()) && Tracks(old(r.Seen()), [F.Drain(raises)], r.Seen(), [])
    ensures old(r.queue) == [] ==> r.Seen() == old(r.Seen())
  {
    hide Inv, LogOk, Indexed, Bounded, Sound, Leads, Spared, Satisfiable, Resolution, Potential, Withdrawing, Staffed, SameTerms,
         Tracks, Faithful, Owns, Landed, Publishes;
    ghost var w0, s0 := r.Now(), r.Seen();
    KeptTerms(w0, w0, raises);
    TracksRefl(s0, [F.Drain(raises)]);
    while r.queue != []
      invariant r.Valid() && Staffed(r.Now(), raises) && SameTerms(w0, r.Now(), raises) && r.nextId == old(r.nextId)
      invariant Faithful(r.Seen()) && Tracks(s0, [F.Drain(raises)], r.Seen(), [F.Drain(raises)])
      invariant old(r.queue) == [] ==> r.Seen() == s0
      decreases Potential(r.Now())
    {
      var id := r.queue[0];
      ghost var u, s := r.Now(), r.Seen();
      HeadInMotion(s);
      ProvideAll(r, id, raises);
      ghost var v, t := r.Now(), r.Seen();
      SameTermsSlots(w0, u, v, raises);
      HeadProvided(t, id);
      r.ApplyCompleted(id, id in raises);
      Completed(w0, v, r.Now(), raises, id);
      CompletedSame(v, r.Now(), id, id in raises);
      DrainTurn(s0, s, t, r.Seen(), raises);
    }
    DrainDone(r.Seen(), raises);
    TracksTrans(s0, [F.Drain(raises)], r.Seen(), [F.Drain(raises)], r.Seen(), []);
    NobodyLeft(r.Seen());
  }

  lemma HeadInMotion(s: Sight)
    requires Sound(s.world, REST) && Faithful(s) && s.queue != []
    ensures Heads(s, s.queue[0])
  {
    hide Edges, Hold, Counters, Stamped, SlotsOk, Waiting, Doomed, Heeded, Disciplined, LogOk, Indexed, Bounded;
    var id := s.queue[0];
    assert id in s.queue && Shape(id, s.world.fibers[id]);
  }

  lemma HeadProvided(t: Sight, id: FiberId)
    requires id in t.world.fibers && Owns(t.world.slots, id, t.world.fibers[id])
    ensures Provided(t.world.slots, id, t.world.fibers[id])
  {}

  lemma DrainTurn(s0: Sight, s: Sight, t: Sight, u: Sight, raises: set<FiberId>)
    requires Tracks(s0, [F.Drain(raises)], s, [F.Drain(raises)]) && Faithful(s) && s.queue != []
    requires Unseen(s, t) && t.queue == s.queue && Tracks(t, [F.Next(s.queue[0] in raises)], u, [])
    ensures Faithful(u) && Tracks(s0, [F.Drain(raises)], u, [F.Drain(raises)])
  {
    hide F.Comes, Faithful;
    F.Turn(ImageOf(s), F.Drain(raises), F.Next(s.queue[0] in raises), F.Drain(raises), ImageOf(u));
    TracksTrans(s0, [F.Drain(raises)], s, [F.Drain(raises)], u, [F.Drain(raises)]);
  }

  lemma DrainDone(s: Sight, raises: set<FiberId>)
    requires s.queue == []
    ensures Tracks(s, [F.Drain(raises)], s, [])
  {
    hide F.Comes, Faithful;
    TracksEnter(s, F.Drain(raises), s, []);
  }

  /** With no apply spawned, nobody is in motion. */
  lemma NobodyLeft(s: Sight)
    requires AtRest(s.world) && Faithful(s) && s.queue == []
    ensures Moving(s.world.fibers) == {}
  {
    hide Edges, Hold, Counters, Stamped, SlotsOk, Waiting, Doomed, Heeded, Disciplined, LogOk, Indexed, Bounded;
    forall x | x in s.world.fibers ensures x !in Moving(s.world.fibers) {
      assert Shape(x, s.world.fibers[x]) && x !in Withdrawing(s.world.fibers) && x !in s.queue;
    }
  }

  // ---------------------------------------------------------------------------------------------
  // The engine's operations, each to quiescence

  method MountInOrder(r: Runtime, c: Component, raises: set<FiberId>) returns (id: FiberId)
    requires r.Valid() && Staffed(r.Now(), raises) && Faithful(r.Seen()) && Admissible(c)
    requires forall p | p in r.fibers :: r.fibers[p].spec.provide !! c.provide
    modifies r
    ensures r.Valid() && r.inFlight == 0 && r.queue == []
    ensures id == old(r.nextId) && r.nextId == id + 1
    ensures Staffed(r.Now(), raises) && Faithful(r.Seen())
    ensures Tracks(old(r.Seen()), [F.Install(id, c), F.Drain(raises)], r.Seen(), [])
  {
    hide Staffed, SameTerms, Sound, Withdrawing, Reevaluated, Admissible, Faithful, Tracks;
    ghost var w0, s0 := r.Now(), r.Seen();
    id := r.Mount(c);
    MountStaffed(w0, r.Now(), raises, id, c);
    ghost var s1 := r.Seen();
    StaysFaithful(s0, [F.Install(id, c)], s1, []);
    DrainInOrder(r, raises);
    TracksBoth(s0, [F.Install(id, c)], s1, [F.Drain(raises)], r.Seen());
    assert [F.Install(id, c)] + [F.Drain(raises)] == [F.Install(id, c), F.Drain(raises)];
  }

  lemma StaysFaithful(s: Sight, todo: F.Todo, t: Sight, rest: F.Todo)
    requires Faithful(s) && Tracks(s, todo, t, rest)
    ensures Faithful(t)
  {
    hide F.Comes;
  }

  /** Withdraws a fiber, waits and erases its record; an inactive one is erased at once. */
  method RetireInOrder(r: Runtime, id: FiberId, raises: set<FiberId>)
    requires r.Valid() && r.inFlight == 0 && r.queue == [] && id in r.fibers
    requires Staffed(r.Now(), raises) && Faithful(r.Seen())
    modifies r
    ensures r.Valid() && r.inFlight == 0 && r.queue == [] && r.nextId == old(r.nextId)
    ensures Staffed(r.Now(), raises) && Faithful(r.Seen())
    ensures Tracks(old(r.Seen()), [F.Retire(id), F.Drain(raises), F.Erase(id)], r.Seen(), [])
  {
    hide Staffed, SameTerms, Sound, Withdrawing, Leads, Spared, Dependents, Faithful, Tracks;
    ghost var w0, s0 := r.Now(), r.Seen();
    Still(r.fibers, id);
    r.Retire(id);
    ghost var w1, s1 := r.Now(), r.Seen();
    if w0.fibers[id].state == Active {
      DependentsClosed(w0.fibers, id);
      RetireStaffed(w0, w1, raises, id);
      StaysFaithful(s0, [F.Retire(id)], s1, []);
    }
    SameSpecs(w0.fibers, w1.fibers);
    DrainInOrder(r, raises);
    ghost var w2, s2 := r.Now(), r.Seen();
    RetiredDown(w0, w1, w2, raises, id);
    EraseStaffed(w2, raises, id);
    r.Erase(id);
    ghost var s3 := r.Seen();
    StaysFaithful(s2, [F.Erase(id)], s3, []);
    if w0.fibers[id].state == Active {
      TracksBoth(s0, [F.Retire(id)], s1, [F.Drain(raises)], s2);
      TracksBoth(s0, [F.Retire(id)] + [F.Drain(raises)], s2, [F.Erase(id)], s3);
      assert [F.Retire(id)] + [F.Drain(raises)] + [F.Erase(id)] == [F.Retire(id), F.Drain(raises), F.Erase(id)];
    } else {
      InactiveRetires(s0, s3, id, raises);
    }
  }

  /** After draining, a withdrawn fiber is inactive, and so is one that was. */
  lemma RetiredDown(w0: World, w1: World, w2: World, raises: set<FiberId>, id: FiberId)
    requires id in w0.fibers && id in w1.fibers && (w0.fibers[id].state == Active || w0.fibers[id].state == Inactive)
    requires AtRest(w2) && Staffed(w2, raises) && Moving(w2.fibers) == {} && SameTerms(w1, w2, raises)
    requires if w0.fibers[id].state == Active then w1.fibers[id].reactivate == -1 else w2 == w0
    ensures id in w2.fibers && w2.fibers[id].state == Inactive
  {
    hide AtRest, Staffed, Moving;
    SameSpecs(w1.fibers, w2.fibers);
    SpecsKept(w1, w2, raises);
    if w0.fibers[id].state == Active {
      OutRests(w2, raises, id);
    }
  }

  /** Retiring an inactive fiber when no apply is out comes to erasing it. */
  lemma InactiveRetires(s: Sight, t: Sight, id: FiberId, raises: set<FiberId>)
    requires id in s.world.fibers && s.world.fibers[id].state == Inactive && s.queue == []
    requires Tracks(s, [F.Erase(id)], t, [])
    ensures Tracks(s, [F.Retire(id), F.Drain(raises), F.Erase(id)], t, [])
  {
    hide F.Comes, Faithful;
    if Faithful(s) {
      F.RetireIdle(ImageOf(s), id, raises);
      F.ComesTrans(ImageOf(s), [F.Retire(id), F.Drain(raises), F.Erase(id)], ImageOf(s), [F.Erase(id)], ImageOf(t), []);
    }
  }

  // ---------------------------------------------------------------------------------------------
  // A consumer that requires nothing is left down

  /**
    A run of the engine that leaves a fiber down although everything it requires, which is nothing, is
    there, and it was neither retired nor failed: it goes down with its second provider, loads again, is
    diverted by the loop that withdraws the first one, and its apply comes back cancelled on a live view.
   */
  method StrandsItsWatcher(a: ServiceId, b: ServiceId) returns (r: Runtime)
    requires KeyLess(a, b)
    ensures fresh(r) && r.Valid() && r.inFlight == 0
    ensures r.fibers.Keys == {2, 3} && r.fibers[3].spec == FR.Watcher(a, b)
    ensures r.fibers[3].state == Inactive && r.fibers[3].reactivate != -1 && !r.fibers[3].applyFailed
    ensures Satisfiable(r.slots, 3, r.fibers[3].spec) && !OnTarget(r.slots, 3, r.fibers[3])
  {
    hide Staffed, Sound, Faithful, Tracks, ImageOf, Satisfiable, OnTarget, FR.Reaches, Reevaluated, Withdrawing, Admissible;
    r := new Runtime();
    ghost var s0 := r.Seen();
    StartsEmpty(s0);
    WatcherFits(a, b);
    var p := MountInOrder(r, Source(a), {});
    ghost var s1 := r.Seen();
    ghost var u := FR.SourceUp(a);
    RunsAs(s0, s1, FR.EMPTY, u, [F.Install(1, Source(a)), F.Drain({})]);
    var q := MountInOrder(r, FR.Middle(a, b), {});
    ghost var s2 := r.Seen();
    ghost var v := FR.MiddleUp(a, b, u);
    RunsAs(s1, s2, u, v, [F.Install(2, FR.Middle(a, b)), F.Drain({})]);
    var x := MountInOrder(r, FR.Watcher(a, b), {});
    ghost var s3 := r.Seen();
    ghost var w := FR.WatcherUp(a, b, v);
    RunsAs(s2, s3, v, w, [F.Install(3, FR.Watcher(a, b)), F.Drain({})]);
    RetireInOrder(r, 1, {});
    ghost var z := FR.WatcherStranded(a, b, w);
    RunsAs(s3, r.Seen(), w, z, [F.Retire(1), F.Drain({}), F.Erase(1)]);
    NothingRequired(r.slots, r.fibers, a, b);
  }

  lemma StartsEmpty(s: Sight)
    requires s.world.fibers == map[] && s.world.slots == map[] && s.queue == [] && s.marks == []
    ensures Faithful(s) && ImageOf(s) == FR.EMPTY && Staffed(s.world, {})
  {
    assert Bodies(s.world.fibers) == map[];
  }

  lemma WatcherFits(a: ServiceId, b: ServiceId)
    requires KeyLess(a, b)
    ensures a != b && Admissible(Source(a)) && Admissible(FR.Middle(a, b)) && Admissible(FR.Watcher(a, b))
  {
    KeysCompare(a, b);
    FR.Declared(a, b);
  }

  /** A run of the frames is the engine's run. */
  lemma RunsAs(s: Sight, t: Sight, u: F.Snap, v: F.Snap, todo: F.Todo)
    requires Faithful(s) && Tracks(s, todo, t, []) && ImageOf(s) == u && FR.Reaches(u, todo, v, [])
    ensures ImageOf(t) == v
    ensures t.world.fibers.Keys == v.bodies.Keys && forall x | x in v.bodies :: BodyOf(t.world.fibers[x]) == v.bodies[x]
  {
    hide F.Comes, F.Runs, Faithful, FR.Reaches;
    FR.Arrives(u, todo, v);
    F.ComesDone(u, todo, ImageOf(t));
    F.RunsUnique(u, todo, v, ImageOf(t));
    assert Bodies(t.world.fibers) == v.bodies;
  }

  lemma NothingRequired(bs: Slots, fs: Pool, a: ServiceId, b: ServiceId)
    requires 3 in fs && fs[3].spec == FR.Watcher(a, b) && fs[3].state == Inactive
    ensures Satisfiable(bs, 3, fs[3].spec) && !OnTarget(bs, 3, fs[3])
  {
    FR.Declared(a, b);
  }

  // ---------------------------------------------------------------------------------------------
  // Agreement

  /** Both at rest, in the same state. */
  ghost predicate Agree(r: Runtime, m: Machine)
    reads r, m
  {
    && r.Valid() && r.inFlight == 0 && Staffed(r.Now(), m.Failing()) && Faithful(r.Seen())
    && m.Valid() && m.Tidy() && m.nextId == r.nextId
    && m.Image() == ImageOf(r.Seen())
  }

  /** What a run of the frames gives is what any other run gives. */
  lemma SameOutcome(s0: Sight, s: Sight, v0: F.Snap, v: F.Snap, todo: F.Todo)
    requires Faithful(s0) && Tracks(s0, todo, s, []) && ImageOf(s0) == v0 && F.Comes(v0, todo, v, [])
    ensures Faithful(s) && ImageOf(s) == v
  {
    hide F.Comes, F.Runs, Faithful, ImageOf;
    F.ComesDone(v0, todo, v);
    F.ComesDone(v0, todo, ImageOf(s));
    F.RunsUnique(v0, todo, v, ImageOf(s));
  }

  lemma StaffedNarrow(w: World, raises: set<FiberId>, fewer: set<FiberId>)
    requires Staffed(w, raises) && forall x | x in w.fibers && x in fewer :: x in raises
    ensures Staffed(w, fewer)
  {
    hide Owns;
    forall x | x in w.fibers ensures Manned(w.slots, x, w.fibers[x], fewer) {
      assert Manned(w.slots, x, w.fibers[x], raises);
    }
  }

  /** Mounts a component with both, in a free slot. */
  method MountBoth(r: Runtime, m: Machine, slot: O.Slot, part: char, config: string)
    requires Agree(r, m) && slot !in m.slotOf && part in m.parts && Admissible(m.parts[part].Spec())
    requires forall p | p in r.fibers :: r.fibers[p].spec.provide !! m.parts[part].Spec().provide
    modifies r, m
    ensures Agree(r, m)
    ensures m.Seating() == old(m.Seating())[slot := Seat(old(m.nextId), part, config)]
  {
    hide Staffed, Sound, Withdrawing, Admissible, Faithful, ImageOf, Tracks, F.Comes, OI.ImageOf, OI.Listing, OI.Plain,
         Seats, O.Wired, O.Queued, Seated, Machine.Running, Machine.Tidy;
    ghost var s0, v0, before := r.Seen(), m.Image(), m.Failing();
    NextFree(r.Now());
    Orderly(r, m, slot, part, config);
    m.Mount(slot, part, config);
    var raises := m.Failing();
    StaffedNarrow(r.Now(), before, raises);
    var id := MountInOrder(r, m.parts[part].Spec(), raises);
    SameOutcome(s0, r.Seen(), v0, m.Image(), [F.Install(id, m.parts[part].Spec()), F.Drain(raises)]);
  }

  // The fibers of both can be put in order, cycles of declarations or not

  /** An engine at rest: views, consumers and slots are those of active fibers, in publication order. */
  lemma AtRestFiber(w: World, x: FiberId)
    requires AtRest(w) && Moving(w.fibers) == {} && x in w.fibers
    ensures w.fibers[x].state == Active || (w.fibers[x].state == Inactive && w.fibers[x].committed == map[])
    ensures w.fibers[x].state == Active ==> x in w.stamps && w.fibers[x].spec.RequiredKeys() <= w.fibers[x].committed.Keys
    ensures w.fibers[x].committed.Keys <= w.fibers[x].spec.Keys()
    ensures forall k | k in w.fibers[x].committed :: FedBy(w, w.fibers[x].committed[k], x, k)
    ensures forall c | c in w.fibers[x].consumers ::
      w.fibers[x].state == Active && c in w.fibers && exists k :: k in w.fibers[c].spec.Keys() && k in w.fibers[x].spec.provide
  {
    hide Counters, Waiting, Doomed, Heeded, Disciplined, LogOk, Indexed, Bounded, Edges, Hold, SlotsOk, Stamped;
    assert Shape(x, w.fibers[x]) && x !in Moving(w.fibers) && x !in Withdrawing(w.fibers);
    forall k | k in w.fibers[x].committed ensures FedBy(w, w.fibers[x].committed[k], x, k) {
      FedAtRest(w, x, k);
    }
    forall c | c in w.fibers[x].consumers
      ensures w.fibers[x].state == Active && c in w.fibers && exists k :: k in w.fibers[c].spec.Keys() && k in w.fibers[x].spec.provide
    {
      ConsumerAtRest(w, x, c);
    }
    if w.fibers[x].state == Active {
      StampedAtRest(w, x);
    }
  }

  ghost predicate FedBy(w: World, p: FiberId, x: FiberId, k: ServiceId) {
    && p != x && p in w.fibers && w.fibers[p].state == Active && k in w.fibers[p].spec.provide
    && p in w.stamps && x in w.stamps && w.stamps[p] < w.stamps[x]
  }

  lemma StampedAtRest(w: World, x: FiberId)
    requires AtRest(w) && x in w.fibers && w.fibers[x].state == Active
    ensures x in w.stamps
  {
    hide Counters, Waiting, Doomed, Heeded, Disciplined, LogOk, Indexed, Bounded, Edges, Hold, SlotsOk;
    assert Shape(x, w.fibers[x]);
  }

  lemma FedAtRest(w: World, x: FiberId, k: ServiceId)
    requires AtRest(w) && Moving(w.fibers) == {} && x in w.fibers && k in w.fibers[x].committed
    ensures FedBy(w, w.fibers[x].committed[k], x, k)
  {
    hide Counters, Waiting, Doomed, Heeded, Disciplined, LogOk, Indexed, Bounded, Edges;
    var p := w.fibers[x].committed[k];
    assert Shape(x, w.fibers[x]) && x !in Moving(w.fibers);
    assert HeldKey(w.fibers, w.slots, p, k);
    assert Shape(p, w.fibers[p]) && p !in Withdrawing(w.fibers);
    assert p in w.fibers[x].committed.Values && Relies(w.fibers[x], p);
  }

  lemma ConsumerAtRest(w: World, x: FiberId, c: FiberId)
    requires AtRest(w) && Moving(w.fibers) == {} && x in w.fibers && c in w.fibers[x].consumers
    ensures w.fibers[x].state == Active && c in w.fibers && exists k :: k in w.fibers[c].spec.Keys() && k in w.fibers[x].spec.provide
  {
    hide Counters, Waiting, Doomed, Heeded, Disciplined, LogOk, Indexed, Bounded, Hold, SlotsOk, Stamped;
    assert c in Reliers(w.fibers, x) && Relies(w.fibers[c], x);
    var k :| k in w.fibers[c].committed && w.fibers[c].committed[k] == x;
    FedAtRest(w, c, k);
    assert Shape(c, w.fibers[c]);
  }

  lemma SlotAtRest(w: World, k: ServiceId)
    requires AtRest(w) && Moving(w.fibers) == {} && k in w.slots
    ensures var p := w.slots[k].provider; p in w.fibers && w.fibers[p].state == Active && k in w.fibers[p].spec.provide
  {
    hide Counters, Waiting, Doomed, Heeded, Disciplined, LogOk, Indexed, Bounded, Edges, Hold, Stamped;
    var p := w.slots[k].provider;
    assert Shape(p, w.fibers[p]) && p !in Moving(w.fibers) && p !in Withdrawing(w.fibers);
  }

  lemma GroundedFiber(r: Runtime, m: Machine, x: FiberId)
    requires Agree(r, m) && x in m.fibers
    ensures OO.GroundedAt(m.Now(), r.stamps, x)
  {
    hide Agree, AtRest, Moving, Component.Keys, Component.RequiredKeys;
    Twins(r, m);
    AtRestHere(r, m);
    var s, f := m.Now(), m.fibers[x];
    MadeHere(r, m, x);
    AtRestFiber(r.Now(), x);
    forall k | k in f.committed ensures k in O.PartOf(s, x).Keys() && f.state == O.Active && OO.Feeding(s, r.stamps, f.committed[k], x, k) {
      assert FedBy(r.Now(), f.committed[k], x, k);
      MadeHere(r, m, f.committed[k]);
    }
    forall c | c in f.consumers ensures f.state == O.Active && O.Known(s, c) && O.Feeds(O.PartOf(s, x), O.PartOf(s, c)) {
      MadeHere(r, m, c);
    }
  }

  lemma AtRestHere(r: Runtime, m: Machine)
    requires Agree(r, m)
    ensures AtRest(r.Now()) && Moving(r.fibers) == {} && m.work == []
  {
    hide Sound, Staffed, Faithful, ImageOf, OI.ImageOf, OI.Listing, OI.Plain, O.Wired, O.Queued;
  }

  lemma MadeHere(r: Runtime, m: Machine, x: FiberId)
    requires Agree(r, m) && x in m.fibers
    ensures x in r.fibers && O.Known(m.Now(), x) && m.fibers[x].part == m.made[x] && Alike(r.fibers[x], m.parts, m.fibers[x])
    ensures r.fibers[x].spec.Keys() == O.PartOf(m.Now(), x).Keys() && r.fibers[x].spec.RequiredKeys() == O.PartOf(m.Now(), x).RequiredKeys()
    ensures forall k :: k in r.fibers[x].spec.provide <==> OO.Offers(m.Now(), x, k)
  {
    hide Sound, Staffed, Faithful, ImageOf, OI.ImageOf, OI.Listing, OI.Plain, O.Sorted, O.Queued;
    Twins(r, m);
    assert O.FiberOk(m.Now(), x);
  }

  lemma GroundedHere(r: Runtime, m: Machine)
    requires Agree(r, m)
    ensures OO.Grounded(m.Now(), r.stamps)
  {
    hide Agree, AtRest, Moving, OO.GroundedAt;
    Twins(r, m);
    AtRestHere(r, m);
    forall x | x in m.fibers ensures OO.GroundedAt(m.Now(), r.stamps, x) {
      GroundedFiber(r, m, x);
    }
    forall k | k in m.bonds
      ensures var p := m.bonds[k].provider; p in m.fibers && m.fibers[p].state == O.Active && OO.Offers(m.Now(), p, k)
    {
      SlotAtRest(r.Now(), k);
      MadeHere(r, m, m.bonds[k].provider);
    }
  }

  lemma CleanMore(r: Runtime, m: Machine, slot: O.Slot, part: char, config: string)
    requires Agree(r, m) && part in m.parts && Admissible(m.parts[part].Spec())
    requires forall p | p in r.fibers :: r.fibers[p].spec.provide !! m.parts[part].Spec().provide
    ensures OO.Clean(OH.AfterMount(m.Now(), m.nextId, slot, part, config))
  {
    hide Agree, AtRest, Moving, Component.Keys, Component.RequiredKeys;
    var w := OH.AfterMount(m.Now(), m.nextId, slot, part, config);
    Twins(r, m);
    OneSource(r, m);
    forall x | x in m.fibers ensures x in r.fibers && forall k :: k in r.fibers[x].spec.provide <==> OO.Offers(m.Now(), x, k) {
      MadeHere(r, m, x);
    }
    forall p, q, k | OO.Offers(w, p, k) && OO.Offers(w, q, k) ensures p == q {
      assert p != m.nextId ==> OO.Offers(m.Now(), p, k);
      assert q != m.nextId ==> OO.Offers(m.Now(), q, k);
    }
    forall x | x in w.fibers && O.Known(w, x) && O.PartOf(w, x).provide != [] ensures O.PartOf(w, x).Keys() == O.PartOf(w, x).RequiredKeys() {
      assert O.PartOf(w, x).provide[0] in O.PartOf(w, x).Spec().provide;
      if x != m.nextId {
        MadeHere(r, m, x);
      }
    }
  }

  lemma OneSource(r: Runtime, m: Machine)
    requires Agree(r, m)
    ensures forall p, q | p in r.fibers && q in r.fibers && p != q :: r.fibers[p].spec.provide !! r.fibers[q].spec.provide
    ensures forall p | p in r.fibers :: Admissible(r.fibers[p].spec)
  {
    hide Edges, Hold, Counters, Stamped, SlotsOk, Waiting, Doomed, Heeded, LogOk, Indexed, Bounded,
         Staffed, Faithful, ImageOf, OI.ImageOf, OI.Listing, OI.Plain, O.Wired, O.Queued, Admissible;
  }

  /** With one source per key and no optional dependency of a provider, the fibers of the machine can be
      put in order, whatever cycles the pool has. */
  lemma Orderly(r: Runtime, m: Machine, slot: O.Slot, part: char, config: string)
    requires Agree(r, m) && part in m.parts && Admissible(m.parts[part].Spec())
    requires forall p | p in r.fibers :: r.fibers[p].spec.provide !! m.parts[part].Spec().provide
    ensures OS.Sortable(OH.AfterMount(m.Now(), m.nextId, slot, part, config))
  {
    hide Agree, Admissible, OO.Grounded, OO.Clean, OS.Sortable, OH.AfterMount;
    GroundedHere(r, m);
    CleanMore(r, m, slot, part, config);
    NotMade(r, m);
    OO.MountGrounds(m.Now(), r.stamps, m.nextId, slot, part, config);
    OO.OrderWires(OH.AfterMount(m.Now(), m.nextId, slot, part, config), r.stamps);
  }

  lemma NotMade(r: Runtime, m: Machine)
    requires Agree(r, m)
    ensures m.nextId !in m.made
  {
    hide Sound, Staffed, Faithful, ImageOf, OI.ImageOf, OI.Listing, OI.Plain, O.Wired, O.Queued;
  }

  lemma NextFree(w: World)
    requires Sound(w, REST)
    ensures w.nextId !in w.fibers
  {}

  /** Retires the fiber in a slot with both. */
  method RetireBoth(r: Runtime, m: Machine, slot: O.Slot)
    requires Agree(r, m) && slot in m.slotOf
    modifies r, m
    ensures Agree(r, m)
    ensures m.Seating() == old(m.Seating()) - {slot}
  {
    hide Staffed, Sound, Withdrawing, Faithful, ImageOf, Tracks, F.Comes, OI.ImageOf, OI.Listing, OI.Plain,
         Seats, O.Wired, O.Queued, Seated;
    ghost var s0, v0 := r.Seen(), m.Image();
    var id := m.slotOf[slot];
    var raises := m.Failing();
    SeatedHere(r, m, slot);
    m.Retire(slot);
    RetireInOrder(r, id, raises);
    StaffedNarrow(r.Now(), raises, m.Failing());
    SameOutcome(s0, r.Seen(), v0, m.Image(), [F.Retire(id), F.Drain(raises), F.Erase(id)]);
  }

  lemma SeatedHere(r: Runtime, m: Machine, slot: O.Slot)
    requires Agree(r, m) && slot in m.slotOf
    ensures m.slotOf[slot] in m.fibers && m.slotOf[slot] in r.fibers && r.queue == []
  {
    Twins(r, m);
  }

  /** Agreement in the programs' own terms: the same fibers in the same states, the same errors, views
      and guards, the same slots with the same owners, and the log the components of one would write is
      the log of the other. */
  lemma Twins(r: Runtime, m: Machine)
    requires Agree(r, m)
    ensures r.fibers.Keys == m.fibers.Keys
    ensures forall x | x in m.fibers :: x in r.fibers && Alike(r.fibers[x], m.parts, m.fibers[x])
    ensures r.slots.Keys == m.bonds.Keys
    ensures forall k | k in m.bonds :: k in r.slots && r.slots[k].provider == m.bonds[k].provider
    ensures r.queue == [] && m.log == OI.Render(m.parts, m.made, r.marks)
  {
    hide O.Sorted, O.FiberOk, Staffed, OI.Listing, OI.Plain, Sound, OI.Render, Seated, O.Queued;
    OI.Imaged(m.Now(), m.marks);
    var a, b := m.Image(), ImageOf(r.Seen());
    assert a.bodies == b.bodies && a.bonds == b.bonds && a.work == b.work && a.marks == b.marks;
    assert r.fibers.Keys == b.bodies.Keys;
    forall x | x in m.fibers ensures x in r.fibers && Alike(r.fibers[x], m.parts, m.fibers[x]) {
      assert a.bodies[x] == b.bodies[x];
    }
    NobodyLands(r.Now());
  }

  predicate Alike(f: Fiber, parts: O.Parts, g: O.Fiber) {
    && g.part in parts && f.spec == parts[g.part].Spec()
    && OI.StateOf(g.state) == f.state && g.applyFailed == f.applyFailed && (g.hasError <==> f.error != None)
    && g.reactivate == f.reactivate && g.committed == f.committed && g.consumers == f.consumers && g.remaining == f.remaining
  }

  /** At rest no slot waits for its fiber to publish. */
  lemma NobodyLands(w: World)
    requires AtRest(w) && Moving(w.fibers) == {}
    ensures forall k | k in w.slots :: w.slots[k].state != Landing
  {
    hide Edges, Hold, Counters, Stamped, Waiting, Doomed, Heeded, Disciplined, LogOk, Indexed, Bounded;
    forall k | k in w.slots ensures w.slots[k].state != Landing {
      var p := w.slots[k].provider;
      assert p in w.fibers && p !in Moving(w.fibers) && Shape(p, w.fibers[p]);
    }
  }

  // ---------------------------------------------------------------------------------------------
  // Whole runs

  datatype Op = Mount(slot: O.Slot, part: char, config: string) | Retire(slot: O.Slot)

  /** The component may join those installed: the engine admits it, and nobody provides its keys. */
  predicate Joins(parts: O.Parts, occupied: map<O.Slot, char>, part: char) {
    && part in parts && Admissible(parts[part].Spec())
    && forall s | s in occupied && occupied[s] in parts :: parts[occupied[s]].Spec().provide !! parts[part].Spec().provide
  }

  /** Mounting into an occupied slot and retiring from an empty one are left out, as the test harness
      leaves them out; every other mount may join. */
  predicate Fitting(parts: O.Parts, occupied: map<O.Slot, char>, ops: seq<Op>)
    decreases |ops|
  {
    if ops == [] then true
    else match ops[0]
      case Mount(s, part, _) =>
        if s in occupied then Fitting(parts, occupied, ops[1..])
        else Joins(parts, occupied, part) && Fitting(parts, occupied[s := part], ops[1..])
      case Retire(s) => Fitting(parts, occupied - {s}, ops[1..])
  }

  function Occupied(seats: map<O.Slot, Seat>): map<O.Slot, char> {
    map s | s in seats :: seats[s].part
  }

  lemma OccupiedMore(seats: map<O.Slot, Seat>, slot: O.Slot, seat: Seat)
    ensures Occupied(seats[slot := seat]) == Occupied(seats)[slot := seat.part]
  {}

  lemma OccupiedLess(seats: map<O.Slot, Seat>, slot: O.Slot)
    ensures Occupied(seats - {slot}) == Occupied(seats) - {slot}
  {}

  lemma SeatsTaken(r: Runtime, m: Machine)
    requires Agree(r, m)
    ensures forall s :: s in m.slotOf <==> s in Occupied(m.Seating())
    ensures forall x | x in r.fibers ::
      x in m.fibers && m.fibers[x].slot in m.slotOf && m.fibers[x].part in m.parts
      && Occupied(m.Seating())[m.fibers[x].slot] == m.fibers[x].part && r.fibers[x].spec == m.parts[m.fibers[x].part].Spec()
  {
    hide Alike, Sound, Staffed, Faithful, ImageOf, OI.ImageOf, OI.Listing, OI.Plain, O.Wired, O.Queued;
    Twins(r, m);
    SeatOf(m.slotOf, m.fibers);
    forall x | x in r.fibers ensures m.fibers[x].part in m.parts && r.fibers[x].spec == m.parts[m.fibers[x].part].Spec() {
      SameSpec(r.fibers[x], m.parts, m.fibers[x]);
    }
  }

  lemma SameSpec(f: Fiber, parts: O.Parts, g: O.Fiber)
    requires Alike(f, parts, g)
    ensures g.part in parts && f.spec == parts[g.part].Spec()
  {}

  /** Both run the same operations and agree. */
  method RunBoth(r: Runtime, m: Machine, ops: seq<Op>)
    requires Agree(r, m) && Fitting(m.parts, Occupied(m.Seating()), ops)
    modifies r, m
    ensures Agree(r, m)
  {
    hide Agree, Joins, Seats;
    for i := 0 to |ops|
      invariant Agree(r, m) && Fitting(m.parts, Occupied(m.Seating()), ops[i..])
    {
      assert ops[i..][0] == ops[i] && ops[i..][1..] == ops[i + 1..];
      ghost var seats := m.Seating();
      SeatsTaken(r, m);
      match ops[i]
      case Mount(slot, part, config) =>
        if slot !in m.slotOf {
          JoinsHere(r, m, part);
          MountBoth(r, m, slot, part, config);
          OccupiedMore(seats, slot, m.Seating()[slot]);
        }
      case Retire(slot) =>
        OccupiedLess(seats, slot);
        if slot in m.slotOf {
          RetireBoth(r, m, slot);
        } else {
          assert Occupied(seats) - {slot} == Occupied(seats);
        }
    }
  }

  lemma JoinsHere(r: Runtime, m: Machine, part: char)
    requires Agree(r, m) && Joins(m.parts, Occupied(m.Seating()), part)
    ensures part in m.parts && Admissible(m.parts[part].Spec())
    ensures forall p | p in r.fibers :: r.fibers[p].spec.provide !! m.parts[part].Spec().provide
  {
    hide Agree, Admissible, Seats;
    SeatsTaken(r, m);
  }

  /** The engine conforms: from scratch, over any pool of plain components, declared cycles included, and
      any operations that fit. */
  method Conform(pool: O.Parts, ops: seq<Op>) returns (r: Runtime, m: Machine)
    requires (forall c | c in pool :: OI.Plain(pool[c])) && Fitting(pool, map[], ops)
    ensures fresh(r) && fresh(m) && Agree(r, m)
    ensures r.fibers.Keys == m.fibers.Keys && forall x | x in m.fibers :: x in r.fibers && Alike(r.fibers[x], pool, m.fibers[x])
    ensures r.slots.Keys == m.bonds.Keys
    ensures forall k | k in m.bonds :: k in r.slots && r.slots[k].provider == m.bonds[k].provider
    ensures m.log == OI.Render(pool, m.made, r.marks)
  {
    hide Alike, Fitting, Agree, Occupied, Seats;
    m := new Machine(pool);
    r := new Runtime();
    StartAlike(r, m);
    NobodySeated(m.slotOf, m.fibers);
    RunBoth(r, m, ops);
    Twins(r, m);
  }

  lemma NobodySeated(slotOf: map<O.Slot, FiberId>, fibers: map<FiberId, O.Fiber>)
    requires slotOf == map[]
    ensures Occupied(Seats(slotOf, fibers)) == map[]
  {
    forall s ensures s !in Occupied(Seats(slotOf, fibers)) {}
  }

  lemma StartAlike(r: Runtime, m: Machine)
    requires r.Valid() && r.fibers == map[] && r.slots == map[] && r.queue == [] && r.marks == [] && r.nextId == 1
    requires m.Valid() && m.Tidy() && m.fibers == map[] && m.bonds == map[] && m.marks == [] && m.nextId == 1
    ensures Agree(r, m)
  {
    hide Sound, OI.Listing, OI.Plain;
    assert Moving(r.fibers) == {};
  }

  // ---------------------------------------------------------------------------------------------
  // So the reference machine solves the declarations

  function Declared(parts: O.Parts, fibers: map<FiberId, O.Fiber>): Specs {
    map x | x in fibers && fibers[x].part in parts :: parts[fibers[x].part].Spec()
  }

  /** Fibers of failing components, or that failed. */
  function Broken(parts: O.Parts, fibers: map<FiberId, O.Fiber>): set<FiberId> {
    set x | x in fibers && fibers[x].part in parts && (parts[fibers[x].part].fails || fibers[x].applyFailed || fibers[x].reactivate == -1)
  }

  ghost predicate Serves(m: Machine, p: FiberId, k: ServiceId)
    reads m
  {
    && p in m.fibers && m.fibers[p].state == O.Active && m.fibers[p].part in m.parts
    && k in m.parts[m.fibers[p].part].provide && k in m.bonds && m.bonds[k].provider == p
  }

  lemma SameDeclarations(r: Runtime, m: Machine)
    requires Agree(r, m)
    ensures SpecsOf(r.fibers) == Declared(m.parts, m.fibers)
    ensures Out(r.fibers, m.Failing()) == Broken(m.parts, m.fibers)
  {
    hide Agree;
    Twins(r, m);
    forall x | x in r.fibers ensures x in m.fibers && Alike(r.fibers[x], m.parts, m.fibers[x]) {}
    assert SpecsOf(r.fibers).Keys == Declared(m.parts, m.fibers).Keys;
    assert Out(r.fibers, m.Failing()) == Broken(m.parts, m.fibers);
  }

  lemma ServesHere(r: Runtime, m: Machine, p: FiberId, k: ServiceId)
    requires Agree(r, m) && p in r.fibers && r.fibers[p].state == Active && k in r.fibers[p].spec.provide
    ensures Serves(m, p, k)
  {
    hide Agree;
    Twins(r, m);
    OwnedHere(r, m, p, k);
    assert Alike(r.fibers[p], m.parts, m.fibers[p]);
  }

  lemma OwnedHere(r: Runtime, m: Machine, p: FiberId, k: ServiceId)
    requires Agree(r, m) && p in r.fibers && r.fibers[p].state == Active && k in r.fibers[p].spec.provide
    ensures k in r.slots && r.slots[k].provider == p
  {
    hide Sound, Faithful, ImageOf, OI.ImageOf, OI.Listing, OI.Plain, O.Wired, O.Queued;
    assert Manned(r.slots, p, r.fibers[p], m.Failing());
  }

  lemma ActiveHere(r: Runtime, m: Machine, x: FiberId, k: ServiceId)
    requires Agree(r, m) && x in r.fibers && r.fibers[x].state == Active && r.fibers[x].spec.RequiredOnly()
    requires k in r.fibers[x].spec.Keys()
    ensures k in r.fibers[x].committed && Serves(m, r.fibers[x].committed[k], k)
  {
    hide Sound, Staffed, Faithful, ImageOf, OI.ImageOf, OI.Listing, OI.Plain, O.Wired, O.Queued, Serves, Withdrawing;
    ActiveFed(r.Now(), x, k);
    ServesHere(r, m, r.fibers[x].committed[k], k);
  }

  lemma LeastHere(r: Runtime, m: Machine, x: FiberId)
    requires Agree(r, m) && Needed(r.fibers) && x in r.fibers
    ensures r.fibers[x].state == Active <==> Derivable(Declared(m.parts, m.fibers), Broken(m.parts, m.fibers), x)
  {
    hide Sound, Staffed, Faithful, ImageOf, OI.ImageOf, OI.Listing, OI.Plain, O.Wired, O.Queued, Withdrawing, Derivable, Declared, Broken;
    SameDeclarations(r, m);
    SettledIsLeastSolution(r.Now(), m.Failing(), x);
  }

  lemma NeededHere(r: Runtime, m: Machine)
    requires Agree(r, m)
    requires forall y | y in Declared(m.parts, m.fibers) :: Declared(m.parts, m.fibers)[y].RequiredOnly()
    ensures Needed(r.fibers)
  {
    hide Agree, Declared, Component.RequiredOnly;
    SameDeclarations(r, m);
    forall x | x in r.fibers ensures r.fibers[x].spec.RequiredOnly() {
      assert x in SpecsOf(r.fibers) && SpecsOf(r.fibers)[x] == r.fibers[x].spec;
    }
  }

  /** When all dependencies are required, the machine's active fibers are the least solution of the
      declarations; an active view gives every declared key the one active fiber that provides it; and
      an active fiber owns what it provides. */
  lemma MachineSolves(r: Runtime, m: Machine, x: FiberId)
    requires Agree(r, m) && x in m.fibers
    requires forall y | y in Declared(m.parts, m.fibers) :: Declared(m.parts, m.fibers)[y].RequiredOnly()
    ensures m.fibers[x].part in m.parts
    ensures m.fibers[x].state == O.Active <==> Derivable(Declared(m.parts, m.fibers), Broken(m.parts, m.fibers), x)
    ensures m.fibers[x].state == O.Active ==>
      && (forall k | k in m.parts[m.fibers[x].part].Keys() ::
            k in m.fibers[x].committed && Serves(m, m.fibers[x].committed[k], k))
      && (forall k | k in m.parts[m.fibers[x].part].provide :: Serves(m, x, k))
  {
    hide Derivable, Agree, AtRest, Staffed, Serves, Declared, Broken;
    Twins(r, m);
    assert Alike(r.fibers[x], m.parts, m.fibers[x]);
    var part := m.parts[m.fibers[x].part];
    NeededHere(r, m);
    LeastHere(r, m, x);
    if r.fibers[x].state == Active {
      forall k | k in part.Keys() ensures k in m.fibers[x].committed && Serves(m, m.fibers[x].committed[k], k) {
        ActiveHere(r, m, x, k);
      }
      forall k | k in part.provide ensures Serves(m, x, k) {
        ServesHere(r, m, x, k);
      }
    }
  }
}
