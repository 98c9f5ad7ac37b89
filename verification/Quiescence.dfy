/**
  Quiescence: draining the pending applies always ends, and where it ends does not depend on the order
  of anything. The active fibers are then the least solution of the declared dependencies.
 */
module Quiescence {
  import opened Fibers
  import opened FiberSteps
  import opened Cascades
  import opened Handlers
  import opened Engine
  import opened EngineImage
  import opened EngineTheorems

  // ---------------------------------------------------------------------------------------------
  // The reference: what should be active, from declarations alone

  type Specs = map<FiberId, Component>

  /** Every key `x` declares is provided by another member of `s`. */
  ghost predicate Fed(cs: Specs, s: set<FiberId>, x: FiberId)
    requires x in cs
  {
    forall k | k in cs[x].Keys() :: Supplied(cs, s, x, k)
  }

  ghost predicate Supplied(cs: Specs, s: set<FiberId>, x: FiberId, k: ServiceId) {
    exists p :: p in s && p in cs && p != x && k in cs[p].provide
  }

  /** Those that can be brought up in `n` rounds, leaving out the retired and the broken. */
  ghost function Level(cs: Specs, out: set<FiberId>, n: nat): set<FiberId> {
    if n == 0 then {} else set x | x in cs && x !in out && Fed(cs, Level(cs, out, n - 1), x)
  }

  /** The least set closed under bringing up fibers whose keys are all provided. */
  ghost predicate Derivable(cs: Specs, out: set<FiberId>, x: FiberId) {
    exists n :: x in Level(cs, out, n)
  }

  lemma {:induction false} LevelsGrow(cs: Specs, out: set<FiberId>, m: nat, n: nat)
    requires m <= n
    ensures Level(cs, out, m) <= Level(cs, out, n)
    decreases m
  {
    if m > 0 {
      LevelsGrow(cs, out, m - 1, n - 1);
      forall x | x in Level(cs, out, m) ensures x in Level(cs, out, n) {
        forall k | k in cs[x].Keys() ensures Supplied(cs, Level(cs, out, n - 1), x, k) {
          assert Supplied(cs, Level(cs, out, m - 1), x, k);
        }
      }
    }
  }

  // ---------------------------------------------------------------------------------------------
  // The engine against the reference

  function SpecsOf(fs: Pool): Specs {
    map x | x in fs :: fs[x].spec
  }

  predicate IsOut(f: Fiber, x: FiberId, raises: set<FiberId>) {
    f.reactivate == -1 || f.applyFailed || x in raises
  }

  /** Fibers that will not be active: retired, failed before, or whose apply raises. */
  function Out(fs: Pool, raises: set<FiberId>): set<FiberId> {
    set x | x in fs && IsOut(fs[x], x, raises)
  }

  /** A fiber owns an available slot for every key it declares to provide. */
  predicate Owns(bs: Slots, x: FiberId, f: Fiber) {
    forall k | k in f.spec.provide :: k in bs && bs[k].provider == x && bs[k].available
  }

  /** Nobody active or loading is retired, nobody active raises, and active fibers own their slots. */
  ghost predicate Staffed(w: World, raises: set<FiberId>) {
    forall x | x in w.fibers :: Manned(w.slots, x, w.fibers[x], raises)
  }

  predicate Manned(bs: Slots, x: FiberId, f: Fiber, raises: set<FiberId>) {
    && (f.state == Loading ==> f.reactivate != -1)
    && (f.state == Active ==> f.reactivate != -1 && x !in raises && Owns(bs, x, f))
  }

  lemma ActiveFed(w: World, x: FiberId, k: ServiceId)
    requires AtRest(w) && x in w.fibers && w.fibers[x].state == Active
    requires w.fibers[x].spec.RequiredOnly() && k in w.fibers[x].spec.Keys()
    ensures k in w.fibers[x].committed
    ensures var p := w.fibers[x].committed[k];
      p in w.fibers && p != x && w.fibers[p].state == Active && k in w.fibers[p].spec.provide
      && x in w.stamps && p in w.stamps && w.stamps[p] < w.stamps[x]
  {
    hide Edges, Counters, Waiting, Doomed, Heeded, Disciplined, LogOk, Indexed, Bounded;
    CommittedKeys(w, x);
    var p := w.fibers[x].committed[k];
    assert p in w.fibers[x].committed.Values && Relies(w.fibers[x], p);
    assert HeldKey(w.fibers, w.slots, p, k) && Shape(x, w.fibers[x]) && Shape(p, w.fibers[p]);
    assert p !in Withdrawing(w.fibers);
  }

  /** What is active has been brought up in rounds: publication order is a derivation. */
  lemma {:induction false} ActiveIsDerivable(w: World, raises: set<FiberId>, x: FiberId)
    requires AtRest(w) && Staffed(w, raises) && forall y | y in w.fibers :: w.fibers[y].spec.RequiredOnly()
    requires x in w.fibers && w.fibers[x].state == Active && x in w.stamps
    ensures x in Level(SpecsOf(w.fibers), Out(w.fibers, raises), w.stamps[x] + 1)
    decreases w.stamps[x]
  {
    hide AtRest, Component.RequiredOnly;
    var cs, out := SpecsOf(w.fibers), Out(w.fibers, raises);
    ActiveHealthy(w, x);
    assert Manned(w.slots, x, w.fibers[x], raises);
    forall k | k in cs[x].Keys() ensures Supplied(cs, Level(cs, out, w.stamps[x]), x, k) {
      ActiveFed(w, x, k);
      var p := w.fibers[x].committed[k];
      ActiveIsDerivable(w, raises, p);
      LevelsGrow(cs, out, w.stamps[p] + 1, w.stamps[x]);
    }
  }

  lemma ActiveHealthy(w: World, x: FiberId)
    requires AtRest(w) && x in w.fibers && w.fibers[x].state == Active
    ensures !w.fibers[x].applyFailed && x in w.stamps
  {
    assert Shape(x, w.fibers[x]) && Published(w.fibers[x]);
  }

  lemma OwnedResolves(w: World, raises: set<FiberId>, p: FiberId, x: FiberId, k: ServiceId)
    requires AtRest(w) && Staffed(w, raises) && p in w.fibers && w.fibers[p].state == Active
    requires p != x && k in w.fibers[p].spec.provide
    ensures Resolves(w.slots, x, k)
  {
    hide Edges, Hold, Counters, Stamped, Waiting, Doomed, Heeded, Disciplined, LogOk, Indexed, Bounded, Withdrawing;
    assert Manned(w.slots, p, w.fibers[p], raises) && Shape(p, w.fibers[p]);
  }

  /** What can be brought up is active once nothing is in motion. */
  lemma {:induction false} DerivableIsActive(w: World, raises: set<FiberId>, n: nat, x: FiberId)
    requires AtRest(w) && Moving(w.fibers) == {} && Staffed(w, raises)
    requires forall y | y in w.fibers :: w.fibers[y].spec.RequiredOnly()
    requires x in Level(SpecsOf(w.fibers), Out(w.fibers, raises), n)
    ensures x in w.fibers && w.fibers[x].state == Active
  {
    hide AtRest, Moving, Staffed;
    var cs, out := SpecsOf(w.fibers), Out(w.fibers, raises);
    forall k | k in w.fibers[x].spec.Keys() ensures Resolves(w.slots, x, k) {
      assert Supplied(cs, Level(cs, out, n - 1), x, k);
      var p :| p in Level(cs, out, n - 1) && p in cs && p != x && k in cs[p].provide;
      DerivableIsActive(w, raises, n - 1, p);
      OwnedResolves(w, raises, p, x, k);
    }
    SettledAtTarget(w, x);
  }

  /** At rest with nothing in motion, the active fibers are exactly the least solution of the declared
      dependencies among the fibers neither retired nor broken. */
  lemma SettledIsLeastSolution(w: World, raises: set<FiberId>, x: FiberId)
    requires AtRest(w) && Moving(w.fibers) == {} && Staffed(w, raises) && x in w.fibers
    requires forall y | y in w.fibers :: w.fibers[y].spec.RequiredOnly()
    ensures w.fibers[x].state == Active <==> Derivable(SpecsOf(w.fibers), Out(w.fibers, raises), x)
  {
    hide AtRest, Moving, Staffed, Level;
    if w.fibers[x].state == Active {
      ActiveHealthy(w, x);
      ActiveIsDerivable(w, raises, x);
    }
    if n :| x in Level(SpecsOf(w.fibers), Out(w.fibers, raises), n) {
      DerivableIsActive(w, raises, n, x);
    }
  }

  /** So the end does not depend on the way there: two settled engines with the same declarations and
      the same fibers out agree on who is active, on every active view, and on every slot's owner. */
  lemma SettledAgree(v: World, w: World, raises: set<FiberId>, x: FiberId)
    requires AtRest(v) && Moving(v.fibers) == {} && Staffed(v, raises)
    requires AtRest(w) && Moving(w.fibers) == {} && Staffed(w, raises)
    requires forall y | y in v.fibers :: v.fibers[y].spec.RequiredOnly()
    requires SpecsOf(v.fibers) == SpecsOf(w.fibers) && Out(v.fibers, raises) == Out(w.fibers, raises)
    requires x in v.fibers
    ensures x in w.fibers && (v.fibers[x].state == Active <==> w.fibers[x].state == Active)
    ensures v.fibers[x].state == Active ==> v.fibers[x].committed == w.fibers[x].committed
    ensures v.fibers[x].state == Active ==> forall k | k in v.fibers[x].spec.provide ::
      k in v.slots && k in w.slots && v.slots[k].provider == x == w.slots[k].provider
  {
    hide AtRest, Moving, Derivable;
    SameSpecs(v.fibers, w.fibers);
    SettledIsLeastSolution(v, raises, x);
    SettledIsLeastSolution(w, raises, x);
    if v.fibers[x].state == Active {
      assert Manned(v.slots, x, v.fibers[x], raises) && Manned(w.slots, x, w.fibers[x], raises);
      SameViews(v, w, x);
    }
  }

  lemma SameSpecs(fs: Pool, gs: Pool)
    requires SpecsOf(fs) == SpecsOf(gs)
    ensures forall x :: x in fs <==> x in gs
    ensures forall x | x in fs :: fs[x].spec == gs[x].spec
  {
    assert forall x :: x in fs <==> x in SpecsOf(fs);
    assert forall x :: x in gs <==> x in SpecsOf(gs);
    forall x | x in fs ensures fs[x].spec == gs[x].spec {
      assert SpecsOf(fs)[x] == SpecsOf(gs)[x];
    }
  }

  lemma SameViews(v: World, w: World, x: FiberId)
    requires AtRest(v) && AtRest(w) && x in v.fibers && x in w.fibers
    requires (forall y :: y in v.fibers <==> y in w.fibers) && forall y | y in v.fibers :: v.fibers[y].spec == w.fibers[y].spec
    requires v.fibers[x].state == Active && w.fibers[x].state == Active && v.fibers[x].spec.RequiredOnly()
    ensures v.fibers[x].committed == w.fibers[x].committed
  {
    hide AtRest;
    CommittedKeys(v, x);
    CommittedKeys(w, x);
    forall k | k in v.fibers[x].committed ensures v.fibers[x].committed[k] == w.fibers[x].committed[k] {
      ActiveFed(v, x, k);
      ActiveFed(w, x, k);
      OneSource(v, v.fibers[x].committed[k], w.fibers[x].committed[k], k);
    }
  }

  lemma OneSource(w: World, p: FiberId, q: FiberId, k: ServiceId)
    requires AtRest(w) && p in w.fibers && q in w.fibers && k in w.fibers[p].spec.provide && k in w.fibers[q].spec.provide
    ensures p == q
  {
    hide Edges, Hold, Counters, Stamped, Waiting, Doomed, Heeded, LogOk, Indexed, Bounded, Shapes, SlotsOk;
  }

  // ---------------------------------------------------------------------------------------------
  // Staffing is kept

  /** The declarations and the fibers that are out. */
  ghost predicate SameTerms(v: World, w: World, raises: set<FiberId>) {
    SpecsOf(w.fibers) == SpecsOf(v.fibers) && Out(w.fibers, raises) == Out(v.fibers, raises)
  }

  lemma MannedThrough(v: World, w: World, raises: set<FiberId>, x: FiberId)
    requires Shapes(v.fibers) && Shapes(w.fibers) && Withdrawing(v.fibers) == {} && Leads(v, w)
    requires x in w.fibers && Manned(v.slots, x, v.fibers[x], raises)
    ensures Manned(w.slots, x, w.fibers[x], raises)
    ensures x in v.fibers && w.fibers[x].spec == v.fibers[x].spec
    ensures (w.fibers[x].reactivate == -1 <==> v.fibers[x].reactivate == -1) && w.fibers[x].applyFailed == v.fibers[x].applyFailed
  {
    hide Satisfiable, ViewLive;
    var a, b := v.fibers[x], w.fibers[x];
    assert Moves(x, a, b, v.slots, w.slots) && Shape(x, a) && Shape(x, b) && Manned(v.slots, x, a, raises);
    assert x !in Withdrawing(v.fibers);
    if b.state == Active {
      assert a.state == Active;
      forall k | k in b.spec.provide ensures k in w.slots && w.slots[k].provider == x && w.slots[k].available {
        assert k in v.slots && v.slots[k].provider == x;
      }
    }
  }

  /** A cascade keeps the staffing and the terms. */
  lemma StaffedThrough(v: World, w: World, raises: set<FiberId>)
    requires Shapes(v.fibers) && Shapes(w.fibers) && Withdrawing(v.fibers) == {} && Leads(v, w)
    requires Staffed(v, raises)
    ensures Staffed(w, raises) && SameTerms(v, w, raises)
  {
    hide Shapes, Withdrawing, Manned;
    SameMembers(v, w);
    forall x | x in w.fibers
      ensures Manned(w.slots, x, w.fibers[x], raises) && x in v.fibers && w.fibers[x].spec == v.fibers[x].spec
      ensures (w.fibers[x].reactivate == -1 <==> v.fibers[x].reactivate == -1) && w.fibers[x].applyFailed == v.fibers[x].applyFailed
    {
      MannedThrough(v, w, raises, x);
    }
    KeptTerms(v, w, raises);
  }

  lemma KeptTerms(v: World, w: World, raises: set<FiberId>)
    requires w.fibers.Keys == v.fibers.Keys
    requires forall x | x in w.fibers :: w.fibers[x].spec == v.fibers[x].spec
    requires forall x | x in w.fibers :: IsOut(w.fibers[x], x, raises) == IsOut(v.fibers[x], x, raises)
    ensures SameTerms(v, w, raises)
  {
    assert Out(w.fibers, raises) == Out(v.fibers, raises);
    assert SpecsOf(w.fibers) == SpecsOf(v.fibers);
  }

  lemma PublishStaffed(v: World, raises: set<FiberId>, id: FiberId)
    requires Staffed(v, raises) && id in v.fibers && v.fibers[id].state == Loading && id !in raises
    requires Owns(v.slots, id, v.fibers[id])
    ensures Staffed(AfterPublish(v, id), raises) && SameTerms(v, AfterPublish(v, id), raises)
  {
    var w := AfterPublish(v, id);
    forall x | x in w.fibers ensures Manned(w.slots, x, w.fibers[x], raises) {
      assert Manned(v.slots, x, v.fibers[x], raises);
    }
    KeptTerms(v, w, raises);
  }

  lemma LandStaffed(v: World, w: World, raises: set<FiberId>, id: FiberId)
    requires AtRest(v) && Staffed(v, raises) && id in v.fibers && InMotion(v.fibers[id]) && id in w.fibers
    requires w == v.(fibers := v.fibers[id := w.fibers[id]], slots := Unbind(v.slots, id))
    requires
      var g := Landed(v.fibers[id], id in raises);
      if !ViewLive(v.slots, v.fibers[id]) && g.reactivate >= 0 then Reevaluated(w.slots, id, g, w.fibers[id]) else w.fibers[id] == g
    ensures Staffed(w, raises) && SameTerms(v, w, raises)
  {
    hide Inv, LogOk, Indexed, Bounded, ViewLive, Satisfiable, Withdrawing;
    InFlightShape(v, id);
    forall x | x in w.fibers ensures Manned(w.slots, x, w.fibers[x], raises) {
      assert Manned(v.slots, x, v.fibers[x], raises);
    }
    KeptTerms(v, w, raises);
  }

  lemma ProvideStaffed(v: World, w: World, raises: set<FiberId>, id: FiberId, k: ServiceId)
    requires AtRest(v) && Staffed(v, raises) && id in v.fibers && v.fibers[id].activation == Loading && k in v.fibers[id].spec.provide
    requires w == v.(slots := v.slots[k := Binding(id, Landing, true)])
    ensures Staffed(w, raises)
  {
    hide AtRest, Owns;
    forall x | x in w.fibers ensures Manned(w.slots, x, w.fibers[x], raises) {
      assert Manned(v.slots, x, v.fibers[x], raises);
      OwnsThrough(v, id, k, x);
    }
  }

  lemma OwnsThrough(v: World, id: FiberId, k: ServiceId, x: FiberId)
    requires AtRest(v) && id in v.fibers && v.fibers[id].activation == Loading && k in v.fibers[id].spec.provide && x in v.fibers
    ensures Owns(v.slots, x, v.fibers[x]) ==> Owns(v.slots[k := Binding(id, Landing, true)], x, v.fibers[x])
  {
    hide Edges, Hold, Counters, Stamped, Waiting, Doomed, Heeded, LogOk, Indexed, Bounded, Shapes, SlotsOk, Withdrawing;
    assert x != id ==> v.fibers[x].spec.provide !! v.fibers[id].spec.provide;
  }

  // ---------------------------------------------------------------------------------------------
  // Draining

  /**
    Runs the pending applies, in any order, until the engine is idle: each plugin provides its
    declared keys and then returns or raises. This is what waiting for idleness observes. Draining
    ends; every settled fiber that needs all its keys is at its target, and so is every other one that
    was not off it at the start and did not stray in one of the completions; and when all dependencies
    are required, the active fibers are the least solution of the declarations.
   */
  method Drain(r: Runtime, raises: set<FiberId>) returns (ghost course: seq<Completion>)
    requires r.Valid() && Staffed(r.Now(), raises)
    modifies r
    ensures r.Valid() && r.inFlight == 0 && r.idleOpen && r.nextId == old(r.nextId)
    ensures Staffed(r.Now(), raises) && SameTerms(old(r.Now()), r.Now(), raises)
    ensures Follows(old(r.Now()), course, r.Now(), raises)
    ensures forall x | x in r.fibers && r.fibers[x].reactivate != -1 && !r.fibers[x].applyFailed ::
      OnTarget(r.slots, x, r.fibers[x]) || (!r.fibers[x].spec.RequiredOnly() && (x in old(Astray(r.Now())) || Strayed(course, x, raises)))
    ensures (forall x | x in r.fibers :: r.fibers[x].spec.RequiredOnly()) ==>
      forall x | x in r.fibers ::
        r.fibers[x].state == Active <==> Derivable(SpecsOf(old(r.fibers)), Out(old(r.fibers), raises), x)
  {
    hide Inv, LogOk, Indexed, Bounded, Sound, Leads, Spared, Satisfiable, Resolution, Potential, Withdrawing, Staffed, SameTerms, Derivable,
         Astray, Completes, Follows, Strayed, Strays;
    ghost var w0 := r.Now();
    KeptTerms(w0, w0, raises);
    course := [];
    FollowsNothing(w0, raises);
    while r.inFlight > 0
      invariant r.Valid() && Staffed(r.Now(), raises) && SameTerms(w0, r.Now(), raises) && r.nextId == old(r.nextId)
      invariant Follows(w0, course, r.Now(), raises)
      invariant forall x | x in Astray(r.Now()) :: x in Astray(w0) || Strayed(course, x, raises)
      decreases Potential(r.Now())
    {
      assert Moving(r.fibers) != {};
      var id :| id in r.fibers && InMotion(r.fibers[id]);
      ghost var u := r.Now();
      ProvideAll(r, id, raises);
      ghost var v := r.Now();
      SameTermsSlots(w0, u, v, raises);
      r.ApplyCompleted(id, id in raises);
      Completed(w0, v, r.Now(), raises, id);
      CompletedSame(v, r.Now(), id, id in raises);
      FollowsOneMore(w0, course, u, Completion(v, id, r.Now()), raises);
      course := course + [Completion(v, id, r.Now())];
    }
    assert Moving(r.fibers) == {};
    forall x | x in r.fibers && r.fibers[x].reactivate != -1 && !r.fibers[x].applyFailed
      ensures OnTarget(r.slots, x, r.fibers[x]) || (!r.fibers[x].spec.RequiredOnly() && (x in Astray(w0) || Strayed(course, x, raises)))
    {
      Still(r.fibers, x);
      SettledOnTarget(r.Now(), x);
    }
    Drained(w0, r.Now(), raises);
  }

  lemma CompletedSame(v: World, w: World, id: FiberId, raised: bool)
    requires id in v.fibers && Completes(v, w, id, raised)
    ensures w.nextId == v.nextId
  {
    hide Reevaluated, Spared, PublishedPool, ServeSlots, Withdraws, ViewLive;
  }

  /** One completion of a course: what was before it, whose it was, what it led to. */
  datatype Completion = Completion(before: World, id: FiberId, after: World)

  /** What there was before completion i of a course from `u`. */
  ghost function Until(u: World, course: seq<Completion>, i: nat): World
    requires i <= |course|
  {
    if i == 0 then u else course[i - 1].after
  }

  /** One completion after `was`, with nothing but provisions of landing fibers before it. */
  ghost predicate Links(was: World, c: Completion, raises: set<FiberId>) {
    && c.id in c.before.fibers && InMotion(c.before.fibers[c.id])
    && c.before == was.(slots := c.before.slots)
    && Completes(c.before, c.after, c.id, c.id in raises)
  }

  /** The completions led from `u` to `w`. */
  ghost predicate Follows(u: World, course: seq<Completion>, w: World, raises: set<FiberId>) {
    && (forall i | 0 <= i < |course| :: Links(Until(u, course, i), course[i], raises))
    && w == Until(u, course, |course|)
  }

  /** One of the completions left the fiber off its target. */
  ghost predicate Strayed(course: seq<Completion>, x: FiberId, raises: set<FiberId>) {
    exists i :: 0 <= i < |course| && course[i].id == x && x in course[i].before.fibers && Strays(course[i].before, x, x in raises)
  }

  lemma FollowsNothing(u: World, raises: set<FiberId>)
    ensures Follows(u, [], u, raises)
  {}

  lemma FollowsOneMore(u: World, course: seq<Completion>, w: World, c: Completion, raises: set<FiberId>)
    requires Follows(u, course, w, raises) && Links(w, c, raises)
    ensures Follows(u, course + [c], c.after, raises)
    ensures forall x | Strayed(course, x, raises) :: Strayed(course + [c], x, raises)
    ensures Strays(c.before, c.id, c.id in raises) ==> Strayed(course + [c], c.id, raises)
  {
    hide Completes, Strays;
    forall i | 0 <= i <= |course| ensures Links(Until(u, course + [c], i), (course + [c])[i], raises) {
      assert Until(u, course + [c], i) == Until(u, course, i);
      assert (course + [c])[i] == if i == |course| then c else course[i];
    }
    forall x | Strayed(course, x, raises) ensures Strayed(course + [c], x, raises) {
      var i :| 0 <= i < |course| && course[i].id == x && x in course[i].before.fibers && Strays(course[i].before, x, x in raises);
      assert (course + [c])[i] == course[i];
    }
    assert (course + [c])[|course|] == c;
  }

  lemma SameTermsSlots(w0: World, u: World, v: World, raises: set<FiberId>)
    requires SameTerms(w0, u, raises) && v == u.(slots := v.slots)
    ensures SameTerms(w0, v, raises)
  {}

  lemma Drained(w0: World, w: World, raises: set<FiberId>)
    requires AtRest(w) && Moving(w.fibers) == {} && Staffed(w, raises) && SameTerms(w0, w, raises)
    ensures (forall x | x in w.fibers :: w.fibers[x].spec.RequiredOnly()) ==>
      forall x | x in w.fibers ::
        w.fibers[x].state == Active <==> Derivable(SpecsOf(w0.fibers), Out(w0.fibers, raises), x)
  {
    hide AtRest, Moving, Staffed, Derivable;
    if forall x | x in w.fibers :: w.fibers[x].spec.RequiredOnly() {
      forall x | x in w.fibers
        ensures w.fibers[x].state == Active <==> Derivable(SpecsOf(w0.fibers), Out(w0.fibers, raises), x)
      {
        SettledIsLeastSolution(w, raises, x);
      }
    }
  }

  /** One completion: closer to rest, staffed as before, on the same terms. */
  lemma Completed(w0: World, v: World, w: World, raises: set<FiberId>, id: FiberId)
    requires AtRest(v) && AtRest(w) && Staffed(v, raises) && SameTerms(w0, v, raises)
    requires id in v.fibers && InMotion(v.fibers[id]) && Owns(v.slots, id, v.fibers[id])
    requires Completes(v, w, id, id in raises)
    ensures Potential(w) < Potential(v)
    ensures Staffed(w, raises) && SameTerms(w0, w, raises)
  {
    hide Leads, Spared, Potential, Staffed, Satisfiable, ViewLive, AfterPublish, Owns, AtRest;
    if Publishes(v, id, id in raises) {
      PublishProgress(v, w, id);
      PublishStaffed(v, raises, id);
      PublishedShapes(v, w, id);
      StaffedThrough(AfterPublish(v, id), w, raises);
    } else {
      LandProgress(v, w, id, id in raises);
      LandStaffed(v, w, raises, id);
    }
  }

  lemma PublishedShapes(v: World, w: World, id: FiberId)
    requires AtRest(v) && AtRest(w) && id in v.fibers && Publishes(v, id, false)
    ensures Shapes(AfterPublish(v, id).fibers) && Shapes(w.fibers) && Withdrawing(AfterPublish(v, id).fibers) == {}
  {
    hide Disciplined, SlotsOk, Edges, Hold, Counters, Stamped, Waiting, Doomed, Heeded, Shapes, LogOk, Indexed, Bounded, Withdrawing, ViewLive;
    PublishStep(v, id, {});
  }

  method ProvideAll(r: Runtime, id: FiberId, ghost raises: set<FiberId>)
    requires r.Valid() && Staffed(r.Now(), raises) && id in r.fibers && InMotion(r.fibers[id])
    modifies r
    ensures r.Valid() && Staffed(r.Now(), raises) && r.Now() == old(r.Now()).(slots := r.slots)
    ensures Owns(r.slots, id, r.fibers[id])
    ensures Potential(r.Now()) == old(Potential(r.Now()))
    ensures Astray(r.Now()) <= old(Astray(r.Now()))
    ensures r.queue == old(r.queue) && Unseen(old(r.Seen()), r.Seen())
  {
    hide Inv, LogOk, Indexed, Bounded, Sound, Potential, Withdrawing, Staffed, Faithful, ImageOf, Astray;
    InFlightShape(r.Now(), id);
    var todo := r.fibers[id].spec.provide;
    while todo != {}
      invariant id in r.fibers && r.fibers[id].activation == Loading && todo <= r.fibers[id].spec.provide
      invariant r.Valid() && Staffed(r.Now(), raises) && r.Now() == old(r.Now()).(slots := r.slots)
      invariant forall k | k in r.fibers[id].spec.provide && k !in todo :: k in r.slots && r.slots[k] == Binding(id, Landing, true)
      invariant Potential(r.Now()) == old(Potential(r.Now()))
      invariant Astray(r.Now()) <= old(Astray(r.Now()))
      invariant r.queue == old(r.queue) && Unseen(old(r.Seen()), r.Seen())
    {
      var k :| k in todo;
      ghost var v := r.Now();
      var declared := r.Provide(id, k, true);
      ProvideSame(v, r.Now(), id, k, Binding(id, Landing, true));
      ProvideStaffed(v, r.Now(), raises, id, k);
      todo := todo - {k};
    }
  }

  /** What the reference machine sees has not changed. */
  ghost predicate Unseen(s: Sight, t: Sight) {
    Faithful(s) ==> Faithful(t) && ImageOf(t) == ImageOf(s)
  }

  // ---------------------------------------------------------------------------------------------
  // Whole runs, one operation at a time to quiescence (proof/oracle/oracle.hpp:130-158)

  /** An engine at rest over required dependencies only. */
  ghost predicate Quiet(r: Runtime, raises: set<FiberId>)
    reads r
  {
    r.Valid() && r.inFlight == 0 && Staffed(r.Now(), raises) && Needed(r.fibers)
  }

  predicate Needed(fs: Pool) {
    forall x | x in fs :: fs[x].spec.RequiredOnly()
  }

  /** The active fibers are the least solution of what is declared now. */
  ghost predicate Solved(fs: Pool, raises: set<FiberId>) {
    forall x | x in fs :: fs[x].state == Active <==> Derivable(SpecsOf(fs), Out(fs, raises), x)
  }

  lemma QuietSolved(r: Runtime, raises: set<FiberId>)
    requires Quiet(r, raises)
    ensures Solved(r.fibers, raises) && Moving(r.fibers) == {}
  {
    hide Sound, Staffed, Derivable, Withdrawing;
    forall x | x in r.fibers ensures r.fibers[x].state == Active <==> Derivable(SpecsOf(r.fibers), Out(r.fibers, raises), x) {
      SettledIsLeastSolution(r.Now(), raises, x);
    }
  }

  lemma TermsNeeded(v: World, w: World, raises: set<FiberId>)
    requires SameTerms(v, w, raises) && Needed(v.fibers)
    ensures Needed(w.fibers) && w.fibers.Keys == v.fibers.Keys
  {
    SameSpecs(v.fibers, w.fibers);
  }

  lemma MountStaffed(v: World, w: World, raises: set<FiberId>, id: FiberId, c: Component)
    requires Staffed(v, raises) && id !in v.fibers && id in w.fibers && w.fibers == v.fibers[id := w.fibers[id]] && w.slots == v.slots
    requires Reevaluated(w.slots, id, Fresh(c), w.fibers[id])
    ensures Staffed(w, raises) && SpecsOf(w.fibers) == SpecsOf(v.fibers)[id := c]
    ensures Out(w.fibers, raises) == Out(v.fibers, raises) + if id in raises then {id} else {}
  {
    hide Satisfiable, Resolution, Owns;
    forall x | x in w.fibers ensures Manned(w.slots, x, w.fibers[x], raises) {
      assert x != id ==> Manned(v.slots, x, v.fibers[x], raises);
    }
  }

  /** Mounts a component and waits for idleness. */
  method MountQuiet(r: Runtime, c: Component, raises: set<FiberId>) returns (id: FiberId)
    requires Quiet(r, raises) && Admissible(c) && c.RequiredOnly()
    requires forall p | p in r.fibers :: r.fibers[p].spec.provide !! c.provide
    modifies r
    ensures Quiet(r, raises) && Solved(r.fibers, raises)
    ensures id !in old(r.fibers) && SpecsOf(r.fibers) == SpecsOf(old(r.fibers))[id := c]
    ensures Out(r.fibers, raises) == Out(old(r.fibers), raises) + if id in raises then {id} else {}
  {
    hide Staffed, SameTerms, Sound, Withdrawing, Reevaluated, Admissible, Derivable;
    ghost var v := r.Now();
    id := r.Mount(c);
    MountStaffed(v, r.Now(), raises, id, c);
    ghost var w := r.Now();
    MountNeeded(v.fibers, w.fibers, id, c);
    ghost var course := Drain(r, raises);
    TermsNeeded(w, r.Now(), raises);
    SpecsKept(w, r.Now(), raises);
    QuietSolved(r, raises);
  }

  lemma SpecsKept(v: World, w: World, raises: set<FiberId>)
    requires SameTerms(v, w, raises)
    ensures SpecsOf(w.fibers) == SpecsOf(v.fibers) && Out(w.fibers, raises) == Out(v.fibers, raises)
    ensures forall x | x in w.fibers && x in v.fibers :: IsOut(w.fibers[x], x, raises) == IsOut(v.fibers[x], x, raises)
  {
    forall x | x in w.fibers && x in v.fibers ensures IsOut(w.fibers[x], x, raises) == IsOut(v.fibers[x], x, raises) {
      assert x in Out(w.fibers, raises) <==> x in Out(v.fibers, raises);
    }
  }

  lemma MountNeeded(fs: Pool, gs: Pool, id: FiberId, c: Component)
    requires Needed(fs) && SpecsOf(gs) == SpecsOf(fs)[id := c] && c.RequiredOnly()
    ensures Needed(gs)
  {
    forall x | x in gs ensures gs[x].spec.RequiredOnly() {
      assert gs[x].spec == SpecsOf(gs)[x] && x in SpecsOf(gs);
      assert x != id ==> x in SpecsOf(fs) && SpecsOf(fs)[x] == fs[x].spec;
    }
  }

  lemma RetireStaffed(v: World, w: World, raises: set<FiberId>, id: FiberId)
    requires AtRest(v) && AtRest(w) && Staffed(v, raises) && id in v.fibers && v.fibers[id].state == Active
    requires Leads(v.(fibers := v.fibers[id := Retired(v.fibers[id])]), w) && id in w.fibers && !Published(w.fibers[id])
    ensures Staffed(w, raises) && SpecsOf(w.fibers) == SpecsOf(v.fibers)
    ensures w.fibers[id].reactivate == -1 && Out(w.fibers, raises) == Out(v.fibers, raises) + {id}
  {
    hide Satisfiable, ViewLive, Manned, AtRest, Shapes, Leads, Withdrawing;
    var u := v.(fibers := v.fibers[id := Retired(v.fibers[id])]);
    RestShapes(v);
    RestShapes(w);
    RetiredShapes(v.fibers, id);
    SameMembers(u, w);
    RetiredManned(u, w, raises, id);
    forall x | x in w.fibers
      ensures Manned(w.slots, x, w.fibers[x], raises) && w.fibers[x].spec == v.fibers[x].spec
      ensures IsOut(w.fibers[x], x, raises) <==> x == id || IsOut(v.fibers[x], x, raises)
    {
      if x != id {
        assert Manned(u.slots, x, u.fibers[x], raises);
        MannedThrough(u, w, raises, x);
      }
    }
    assert SpecsOf(w.fibers) == SpecsOf(v.fibers);
    assert Out(w.fibers, raises) == Out(v.fibers, raises) + {id};
  }

  lemma RestShapes(w: World)
    requires AtRest(w)
    ensures Shapes(w.fibers) && Withdrawing(w.fibers) == {}
  {}

  lemma RetiredManned(u: World, w: World, raises: set<FiberId>, id: FiberId)
    requires Shapes(u.fibers) && Shapes(w.fibers) && Leads(u, w)
    requires id in u.fibers && id in w.fibers && u.fibers[id].state == Active
    requires u.fibers[id].reactivate == -1 && !Published(w.fibers[id])
    ensures Manned(w.slots, id, w.fibers[id], raises) && w.fibers[id].spec == u.fibers[id].spec && w.fibers[id].reactivate == -1
  {
    hide Satisfiable, ViewLive, Owns;
    assert Moves(id, u.fibers[id], w.fibers[id], u.slots, w.slots) && Shape(id, w.fibers[id]) && Shape(id, u.fibers[id]);
  }

  /** Withdrawing a fiber, whatever it was doing, keeps the staffing and the declarations, and nobody
      who was retired comes back. */
  lemma WithdrawStaffed(v: World, w: World, raises: set<FiberId>, id: FiberId)
    requires AtRest(v) && AtRest(w) && Staffed(v, raises) && id in v.fibers
    requires v.fibers[id].state == Inactive ==> w == v.(fibers := v.fibers[id := Retired(v.fibers[id])])
    requires InMotion(v.fibers[id]) ==>
      && id in w.fibers && w == v.(fibers := v.fibers[id := w.fibers[id]])
      && w.fibers[id] == if v.fibers[id].state == Loading then Diverted(Retired(v.fibers[id])) else Retired(v.fibers[id])
    requires v.fibers[id].state == Active ==>
      && Leads(v.(fibers := v.fibers[id := Retired(v.fibers[id])]), w) && id in w.fibers && !Published(w.fibers[id])
    ensures Staffed(w, raises) && SpecsOf(w.fibers) == SpecsOf(v.fibers)
    ensures id in w.fibers && w.fibers[id].reactivate == -1
    ensures forall x | x in v.fibers && v.fibers[x].reactivate == -1 :: x in w.fibers && w.fibers[x].reactivate == -1
  {
    hide AtRest, Owns, Leads, Published, Staffed;
    if v.fibers[id].state == Active {
      RetireStaffed(v, w, raises, id);
      StayRetired(v, w, id);
    } else {
      StaffedAt(v, w, raises, id);
    }
  }

  lemma StayRetired(v: World, w: World, id: FiberId)
    requires id in v.fibers && Leads(v.(fibers := v.fibers[id := Retired(v.fibers[id])]), w)
    ensures forall x | x in v.fibers && v.fibers[x].reactivate == -1 :: x in w.fibers && w.fibers[x].reactivate == -1
  {
    hide Satisfiable, ViewLive;
    var u := v.(fibers := v.fibers[id := Retired(v.fibers[id])]);
    forall x | x in v.fibers && v.fibers[x].reactivate == -1 ensures x in w.fibers && w.fibers[x].reactivate == -1 {
      assert Moves(x, u.fibers[x], w.fibers[x], u.slots, w.slots);
    }
  }

  lemma StaffedAt(v: World, w: World, raises: set<FiberId>, id: FiberId)
    requires Staffed(v, raises) && id in v.fibers && id in w.fibers && w == v.(fibers := v.fibers[id := w.fibers[id]])
    requires w.fibers[id].spec == v.fibers[id].spec && w.fibers[id].state != Loading && w.fibers[id].state != Active
    ensures Staffed(w, raises) && SpecsOf(w.fibers) == SpecsOf(v.fibers)
  {
    hide Owns;
    forall x | x in w.fibers ensures Manned(w.slots, x, w.fibers[x], raises) {
      assert Manned(v.slots, x, v.fibers[x], raises);
    }
    assert SpecsOf(w.fibers) == SpecsOf(v.fibers);
  }

  lemma RetiredShapes(fs: Pool, id: FiberId)
    requires Shapes(fs) && id in fs && Withdrawing(fs) == {}
    ensures Shapes(fs[id := Retired(fs[id])]) && Withdrawing(fs[id := Retired(fs[id])]) == {}
  {
    forall x | x in fs ensures Shape(x, fs[id := Retired(fs[id])][x]) && fs[x].activation != Unloading {
      assert Shape(x, fs[x]) && x !in Withdrawing(fs);
    }
  }

  /** Retires a fiber, waits for idleness and erases its record. */
  method RetireQuiet(r: Runtime, id: FiberId, raises: set<FiberId>)
    requires Quiet(r, raises) && id in r.fibers
    modifies r
    ensures Quiet(r, raises) && Solved(r.fibers, raises)
    ensures SpecsOf(r.fibers) == SpecsOf(old(r.fibers)) - {id} && Out(r.fibers, raises) == Out(old(r.fibers), raises) - {id}
  {
    hide Staffed, SameTerms, Sound, Withdrawing, Derivable, Leads, Spared, Dependents;
    ghost var v := r.Now();
    QuietSolved(r, raises);
    Still(v.fibers, id);
    r.Retire(id);
    ghost var w := r.Now();
    if v.fibers[id].state == Active {
      DependentsClosed(v.fibers, id);
      RetireStaffed(v, w, raises, id);
    }
    SameSpecs(v.fibers, w.fibers);
    ghost var course := Drain(r, raises);
    TermsNeeded(w, r.Now(), raises);
    SpecsKept(w, r.Now(), raises);
    QuietSolved(r, raises);
    RetiredInactive(v, w, r.Now(), raises, id);
    ghost var q := r.Now();
    EraseStaffed(q, raises, id);
    r.Erase(id);
    QuietSolved(r, raises);
  }

  lemma Still(fs: Pool, id: FiberId)
    requires Moving(fs) == {} && id in fs
    ensures fs[id].state == Active || fs[id].state == Inactive
  {
    assert id !in Moving(fs);
  }

  /** Once nothing is in motion, whoever is out is inactive. */
  lemma OutRests(w: World, raises: set<FiberId>, id: FiberId)
    requires AtRest(w) && Staffed(w, raises) && Moving(w.fibers) == {} && id in w.fibers && IsOut(w.fibers[id], id, raises)
    ensures w.fibers[id].state == Inactive
  {
    hide AtRest, Moving;
    Still(w.fibers, id);
    assert Manned(w.slots, id, w.fibers[id], raises);
    if w.fibers[id].state == Active {
      ActiveHealthy(w, id);
    }
  }

  /** A retired fiber is inactive after draining; one that was inactive stays out or comes up. */
  lemma RetiredInactive(v: World, w: World, q: World, raises: set<FiberId>, id: FiberId)
    requires id in v.fibers && id in w.fibers && id in q.fibers && SameTerms(w, q, raises) && AtRest(q) && Staffed(q, raises)
    requires Solved(v.fibers, raises) && Solved(q.fibers, raises) && Moving(q.fibers) == {} && Moving(v.fibers) == {}
    requires if v.fibers[id].state == Active then w.fibers[id].reactivate == -1 else w == v
    ensures q.fibers[id].state == Inactive
  {
    hide Derivable, AtRest, Staffed;
    Still(v.fibers, id);
    Still(q.fibers, id);
    SpecsKept(w, q, raises);
    if v.fibers[id].state == Active {
      OutRests(q, raises, id);
    }
  }

  lemma EraseStaffed(v: World, raises: set<FiberId>, id: FiberId)
    requires Staffed(v, raises) && Moving(v.fibers) == {}
    ensures forall w: World :: w.fibers == v.fibers - {id} && w.slots == v.slots ==>
      && Staffed(w, raises) && Moving(w.fibers) == {} && (Needed(v.fibers) ==> Needed(w.fibers))
      && SpecsOf(w.fibers) == SpecsOf(v.fibers) - {id} && Out(w.fibers, raises) == Out(v.fibers, raises) - {id}
  {
    hide Owns;
    forall w: World | w.fibers == v.fibers - {id} && w.slots == v.slots
      ensures Staffed(w, raises) && Moving(w.fibers) == {} && (Needed(v.fibers) ==> Needed(w.fibers))
      ensures SpecsOf(w.fibers) == SpecsOf(v.fibers) - {id} && Out(w.fibers, raises) == Out(v.fibers, raises) - {id}
    {
      forall x | x in w.fibers ensures Manned(w.slots, x, w.fibers[x], raises) && x !in Moving(v.fibers) {
        assert Manned(v.slots, x, v.fibers[x], raises);
      }
      assert Out(w.fibers, raises) == Out(v.fibers, raises) - {id};
    }
  }
}
