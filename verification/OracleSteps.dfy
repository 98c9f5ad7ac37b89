/** What each elementary step of the reference machine does to the moment it is taken in. */
module OracleSteps {
  import opened Oracle

  lemma FollowsRefl(s: Moment)
    ensures Follows(s, s, {}) && Sinks(s, s)
  {}

  lemma SameViewLive(v: Moment, w: Moment, x: FiberId)
    requires Wired(v) && x in v.fibers && SameView(v, w, x)
    ensures Live(w.bonds, v.fibers[x].committed) == Live(v.bonds, v.fibers[x].committed)
  {
    assert FiberOk(v, x);
    assert forall k | k in v.fibers[x].committed :: SameBond(v.bonds, w.bonds, k);
  }

  /** What nobody touched costs no more than before. */
  lemma UntouchedCost(v: Moment, w: Moment, x: FiberId)
    requires Wired(v) && Untouched(v, w, x) && SameView(v, w, x)
    ensures Cost(w, x) <= Cost(v, x)
  {
    hide Live, Wired, Pending, SameView;
    SameViewLive(v, w, x);
  }

  lemma FloorTrans(u: Moment, v: Moment, w: Moment, x: FiberId)
    requires Wired(u) && Wired(v) && SameCast(u, v) && SameCast(v, w) && v.low <= u.low && w.low <= v.low
    requires x in u.fibers && Floor(u, v, x) && Floor(v, w, x)
    ensures Floor(u, w, x)
    ensures Rank(u, x) == w.low && (Lowered(u, v, x) || Lowered(v, w, x)) ==> Lowered(u, w, x)
  {
    hide Cost, Wired, Pending, FiberOk, SameBond;
    KnownFiber(u, x);
    KnownFiber(v, x);
    SameRank(u, v, x);
    if Rank(u, x) <= w.low {
      SameViewTrans(u, v, w, x);
      if Untouched(u, v, x) {
        UntouchedCost(u, v, x);
      }
      if Untouched(v, w, x) {
        UntouchedCost(v, w, x);
      }
    }
  }

  lemma SameViewTrans(u: Moment, v: Moment, w: Moment, x: FiberId)
    requires SameCast(u, v) && Known(u, x) && Known(v, x) && SameView(u, v, x) && SameView(v, w, x)
    ensures SameView(u, w, x)
  {
    forall k | k in PartOf(u, x).Keys() ensures SameBond(u.bonds, w.bonds, k) {
      assert SameBond(u.bonds, v.bonds, k) && SameBond(v.bonds, w.bonds, k);
    }
  }

  lemma KnownFiber(s: Moment, x: FiberId)
    requires Wired(s) && x in s.fibers
    ensures Known(s, x)
  {
    assert FiberOk(s, x);
  }

  lemma BeneathTrans(u: Moment, v: Moment, w: Moment)
    requires Wired(u) && Wired(v) && SameCast(u, v) && SameCast(v, w) && Beneath(u, v) && Beneath(v, w)
    ensures Beneath(u, w)
  {
    hide Wired, Floor, Lowered, Rank;
    forall x | x in u.fibers ensures Floor(u, w, x) {
      FloorTrans(u, v, w, x);
    }
    if w.low < v.low {
      var x :| Rank(v, x) == w.low && Lowered(v, w, x);
      SameRank(u, v, x);
      LoweredKnown(v, w, x);
      FloorTrans(u, v, w, x);
      assert Lowered(u, w, x);
    } else if v.low < u.low {
      var x :| Rank(u, x) == v.low && Lowered(u, v, x);
      LoweredKnown(u, v, x);
      FloorTrans(u, v, w, x);
      assert Lowered(u, w, x);
    }
  }

  lemma SameRank(u: Moment, v: Moment, x: FiberId)
    requires SameCast(u, v)
    ensures Rank(u, x) == Rank(v, x)
  {}

  lemma LoweredKnown(v: Moment, w: Moment, x: FiberId)
    requires Lowered(v, w, x)
    ensures x in v.fibers
  {}

  lemma FollowsTrans(u: Moment, v: Moment, w: Moment, owing: set<FiberId>)
    requires Wired(u) && Wired(v) && Follows(u, v, owing) && Follows(v, w, {})
    ensures Follows(u, w, owing)
    ensures Sinks(u, v) && Sinks(v, w) ==> Sinks(u, w)
  {
    hide Wired, Beneath, Credit, Actives, Queued;
    BeneathTrans(u, v, w);
  }

  lemma FollowsLast(u: Moment, v: Moment, w: Moment, owing: set<FiberId>)
    requires Wired(u) && Wired(v) && Follows(u, v, {}) && Follows(v, w, owing)
    ensures Follows(u, w, owing)
  {
    hide Wired, Beneath, Credit, Actives, Queued;
    BeneathTrans(u, v, w);
  }

  /** A debt of one is covered by a step that saved one. */
  lemma PayBack(u: Moment, v: Moment, w: Moment, x: FiberId)
    requires Wired(u) && Wired(v) && Follows(u, v, {}) && Follows(v, w, {x})
    requires x in u.fibers && x in v.fibers && Credit(v, x) + 1 <= Credit(u, x)
    ensures Follows(u, w, {})
    ensures Sinks(u, v) && Sinks(v, w) ==> Sinks(u, w)
  {
    hide Wired, Beneath, Credit, Actives, Queued;
    BeneathTrans(u, v, w);
  }

  lemma FollowsWiden(v: Moment, w: Moment, owing: set<FiberId>)
    requires Follows(v, w, {})
    ensures Follows(v, w, owing)
  {
    hide Beneath, Credit, Actives, Queued;
  }

  lemma SameMembers(v: Moment, w: Moment, owing: set<FiberId>)
    requires Follows(v, w, owing)
    ensures w.fibers.Keys == v.fibers.Keys && w.low <= v.low && SameCast(v, w)
  {}

  lemma KnownPart(s: Moment, x: FiberId)
    requires Wired(s) && x in s.fibers
    ensures Known(s, x) && s.fibers[x].part == s.made[x]
  {
    assert FiberOk(s, x);
  }

  lemma SinksTrans(u: Moment, v: Moment, w: Moment)
    requires Sinks(u, v) && Sinks(v, w)
    ensures Sinks(u, w)
  {
    hide Actives, Leaving;
  }

  /** A step that sinks does not raise the measure of the recursion. */
  lemma SameMoves(u: Moment, v: Moment)
    requires Sinks(u, v)
    ensures Actives(v) < Actives(u) || (Actives(v) == Actives(u) && Leaving(v) <= Leaving(u))
  {
    hide Actives, Leaving;
  }

  lemma FewerActives(v: Moment, w: Moment, owing: set<FiberId>)
    requires Follows(v, w, owing)
    ensures Actives(w) <= Actives(v)
  {}

  lemma NotActive(s: Moment, x: FiberId)
    requires x in s.fibers ==> s.fibers[x].state != Active
    ensures x !in Actives(s)
  {}

  lemma {:induction false} SubsetSize<T>(a: set<T>, b: set<T>)
    requires a <= b
    ensures |a| <= |b|
  {
    if x :| x in a {
      SubsetSize(a - {x}, b - {x});
    }
  }

  // ---------------------------------------------------------------------------------------------
  // A step that changes one fiber, its own bonds and its own place in the queue

  ghost predicate OnlyBonds(s: Moment, w: Moment, x: FiberId)
    requires Known(s, x)
  {
    forall k | k !in PartOf(s, x).provide :: SameBond(s.bonds, w.bonds, k)
  }

  ghost predicate Local(s: Moment, w: Moment, x: FiberId) {
    && w.parts == s.parts && w.rank == s.rank && w.idle == s.idle && w.made == s.made
    && x in s.fibers && x in w.fibers && w.fibers == s.fibers[x := w.fibers[x]]
    && w.fibers[x].slot == s.fibers[x].slot && w.fibers[x].part == s.fibers[x].part && w.fibers[x].config == s.fibers[x].config
    && w.low <= s.low
    && (forall y | y in s.fibers && y != x :: Pending(w, y) == Pending(s, y))
  }

  lemma FeedsUp(s: Moment, p: FiberId, c: FiberId, k: Key)
    requires Sorted(s) && Able(s, p) && Known(s, c) && k in PartOf(s, p).provide && k in PartOf(s, c).Keys()
    ensures Over(s, p, c) && Rank(s, p) < Rank(s, c)
  {
    assert Feeds(PartOf(s, p), PartOf(s, c));
  }

  /** Bonds of a fiber are seen only above it. */
  lemma ViewAbove(s: Moment, w: Moment, x: FiberId, y: FiberId)
    requires Sorted(s) && Able(s, x) && Known(s, y) && OnlyBonds(s, w, x) && Rank(s, y) <= Rank(s, x)
    ensures SameView(s, w, y)
  {
    hide Sorted, Rank;
    forall k | k in PartOf(s, y).Keys() ensures SameBond(s.bonds, w.bonds, k) {
      if k in PartOf(s, x).provide {
        FeedsUp(s, x, y, k);
      }
    }
  }

  lemma SameBonds(s: Moment, w: Moment, y: FiberId)
    requires Known(s, y) && w.bonds == s.bonds
    ensures SameView(s, w, y)
  {}

  lemma OthersFloor(s: Moment, w: Moment, x: FiberId, y: FiberId)
    requires Wired(s) && Local(s, w, x) && Known(s, x) && OnlyBonds(s, w, x)
    requires (w.low <= Rank(s, x) && Able(s, x)) || w.bonds == s.bonds
    requires y in s.fibers && y != x
    ensures Floor(s, w, y) && Untouched(s, w, y)
    ensures Credit(w, y) == Credit(s, y)
  {
    hide OnlyBonds, SameView, Pending, Sorted, FiberOk;
    SameSize(s, w, x);
    KnownFiber(s, y);
    if w.bonds == s.bonds {
      SameBonds(s, w, y);
    } else if Rank(s, y) <= Rank(s, x) {
      ViewAbove(s, w, x, y);
    }
  }

  lemma SameSize(s: Moment, w: Moment, x: FiberId)
    requires Local(s, w, x)
    ensures |w.fibers| == |s.fibers| && w.fibers.Keys == s.fibers.Keys
  {
    assert w.fibers.Keys == s.fibers.Keys;
    assert |s.fibers| == |s.fibers.Keys| && |w.fibers| == |w.fibers.Keys|;
  }

  /** What is left to show of such a step: its effect on the fiber itself. */
  lemma LocalFollows(s: Moment, w: Moment, x: FiberId, owing: set<FiberId>)
    requires Wired(s) && Local(s, w, x) && Known(s, x) && OnlyBonds(s, w, x)
    requires (w.low <= Rank(s, x) && Able(s, x)) || w.bonds == s.bonds
    requires Floor(s, w, x) && (w.low < s.low ==> Rank(s, x) == w.low && Lowered(s, w, x))
    requires Credit(w, x) <= Credit(s, x) + (if x in owing then 1 else 0)
    requires w.fibers[x].state == Active ==> s.fibers[x].state == Active
    requires w.fibers[x].state == Loading ==> s.fibers[x].state == Loading || x in w.work
    requires s.work <= w.work
    ensures Follows(s, w, owing)
  {
    hide Floor, OnlyBonds, Credit, Wired, Lowered, Rank, Pending, Known, Queued, Actives;
    SameSize(s, w, x);
    forall y | y in s.fibers && y != x ensures Floor(s, w, y) && Credit(w, y) <= Credit(s, y) {
      OthersFloor(s, w, x, y);
    }
    LocalPhases(s, w, x);
  }

  lemma LocalPhases(s: Moment, w: Moment, x: FiberId)
    requires x in s.fibers && x in w.fibers && w.fibers == s.fibers[x := w.fibers[x]] && s.work <= w.work
    requires w.fibers[x].state == Active ==> s.fibers[x].state == Active
    requires w.fibers[x].state == Loading ==> s.fibers[x].state == Loading || x in w.work
    ensures Actives(w) <= Actives(s) && (Queued(s) ==> Queued(w))
  {
    assert forall y | y in s.work :: y in w.work;
  }

  lemma LocalWired(s: Moment, w: Moment, x: FiberId)
    requires Wired(s) && Local(s, w, x) && FiberOk(w, x)
    requires forall k | k in w.bonds :: (k in s.bonds && w.bonds[k].provider == s.bonds[k].provider) || ProvidedBy(s, w.bonds[k].provider, k)
    requires forall y | y in w.work :: y in s.work || (y == x && Able(s, x))
    ensures Wired(w)
  {
    hide Sorted, ProvidedBy, Over;
    OrderKept(s, w);
    forall y | y in w.fibers ensures FiberOk(w, y) {
      if y != x {
        FiberSame(s, w, y);
      }
    }
    forall k | k in w.bonds ensures ProvidedBy(w, w.bonds[k].provider, k) {
      assert k in s.bonds ==> ProvidedBy(s, s.bonds[k].provider, k);
    }
    assert Known(s, x) && forall y | y in s.work :: Able(s, y);
  }

  // ---------------------------------------------------------------------------------------------
  // The steps

  predicate Kept(f: Fiber, g: Fiber) {
    && g.slot == f.slot && g.part == f.part && g.config == f.config
    && g.state == f.state && g.committed == f.committed && g.remaining <= f.remaining
  }

  ghost predicate Consumable(s: Moment, p: FiberId, cs: set<FiberId>) {
    forall c | c in cs :: Over(s, p, c)
  }

  /** Flags, edges, guards released, guards released: the fiber stays where it is. */
  lemma TouchStep(s: Moment, x: FiberId, g: Fiber)
    requires Wired(s) && x in s.fibers && Kept(s.fibers[x], g) && Consumable(s, x, g.consumers - s.fibers[x].consumers)
    ensures var w := s.(fibers := s.fibers[x := g]);
      Wired(w) && Follows(s, w, {}) && Sinks(s, w) && Credit(w, x) == Credit(s, x) + g.remaining - s.fibers[x].remaining
  {
    hide Follows, Wired, Floor, OnlyBonds, FiberOk, ProvidedBy, Lowered, Rank, Known, SameBond;
    var w := s.(fibers := s.fibers[x := g]);
    KeptFiber(s, x, g);
    SameSize(s, w, x);
    LocalWired(s, w, x);
    LocalFollows(s, w, x, {});
    assert Actives(w) == Actives(s) && Leaving(w) == Leaving(s);
  }


  /** A fiber that gains no view and no consumer stays well formed. */
  lemma FiberStays(s: Moment, w: Moment, x: FiberId)
    requires w.parts == s.parts && w.made == s.made && w.rank == s.rank && w.idle == s.idle && x in s.fibers && x in w.fibers && FiberOk(s, x)
    requires w.fibers[x].part == s.fibers[x].part && Consumable(s, x, w.fibers[x].consumers - s.fibers[x].consumers)
    requires w.fibers[x].committed == s.fibers[x].committed || w.fibers[x].committed == map[]
    requires w.fibers[x].state == Inactive || Able(s, x)
    ensures FiberOk(w, x)
  {
    hide ProvidedBy, Over, Sorted, Blocked;
    OrderKept(s, w);
    forall c | c in w.fibers[x].consumers ensures Over(w, x, c) {
      assert c in s.fibers[x].consumers || c in w.fibers[x].consumers - s.fibers[x].consumers;
    }
    BlockedSame(s, w, x);
  }

  ghost predicate SameOrder(s: Moment, w: Moment) {
    w.parts == s.parts && w.rank == s.rank && w.idle == s.idle && w.made == s.made
  }

  lemma OrderKept(s: Moment, w: Moment)
    requires SameOrder(s, w)
    ensures Sorted(s) ==> Sorted(w)
    ensures forall p, c :: Over(w, p, c) <==> Over(s, p, c)
    ensures forall p, k :: ProvidedBy(w, p, k) <==> ProvidedBy(s, p, k)
  {
    assert forall p, c :: Over(w, p, c) <==> Over(s, p, c);
    assert forall x :: Rank(w, x) == Rank(s, x);
  }

  lemma BlockedSame(s: Moment, w: Moment, x: FiberId)
    requires SameOrder(s, w) && Known(s, x)
    ensures Blocked(w, x) <==> Blocked(s, x)
  {
    hide ProvidedBy, Over, Sorted;
    OrderKept(s, w);
    if k :| k in PartOf(s, x).RequiredKeys() && forall p :: !ProvidedBy(s, p, k) {
      assert k in PartOf(w, x).RequiredKeys() && forall p :: !ProvidedBy(w, p, k);
    }
    if k :| k in PartOf(w, x).RequiredKeys() && forall p :: !ProvidedBy(w, p, k) {
      assert k in PartOf(s, x).RequiredKeys() && forall p :: !ProvidedBy(s, p, k);
    }
  }

  /** What nobody touched stays well formed. */
  lemma FiberSame(s: Moment, w: Moment, x: FiberId)
    requires SameOrder(s, w) && x in s.fibers && x in w.fibers && FiberOk(s, x)
    requires w.fibers[x] == s.fibers[x].(config := w.fibers[x].config)
    ensures FiberOk(w, x)
  {
    hide ProvidedBy, Over, Sorted, Blocked;
    OrderKept(s, w);
    BlockedSame(s, w, x);
  }

  /** Whoever is not at rest may come up. */
  lemma AbleFiber(s: Moment, x: FiberId)
    requires Wired(s) && x in s.fibers && s.fibers[x].state != Inactive
    ensures Able(s, x)
  {
    assert FiberOk(s, x);
  }

  /** Whoever has everything it requires may come up. */
  lemma AbleSatisfied(s: Moment, x: FiberId)
    requires Wired(s) && x in s.fibers && Known(s, x)
    ensures Satisfiable(s.bonds, x, PartOf(s, x)) ==> Able(s, x)
  {
    hide Sorted;
    assert FiberOk(s, x);
    if x in s.idle {
      BlockedMisses(s, x);
    }
  }

  lemma BlockedMisses(s: Moment, x: FiberId)
    requires Wired(s) && Known(s, x) && Blocked(s, x)
    ensures !Satisfiable(s.bonds, x, PartOf(s, x))
  {
    hide Sorted, FiberOk;
    var k :| k in PartOf(s, x).RequiredKeys() && forall p :: !ProvidedBy(s, p, k);
    assert k in s.bonds ==> ProvidedBy(s, s.bonds[k].provider, k);
  }

  lemma SameBondsOnly(s: Moment, w: Moment, x: FiberId)
    requires Known(s, x) && w.bonds == s.bonds
    ensures OnlyBonds(s, w, x)
  {}

  lemma KeptFiber(s: Moment, x: FiberId, g: Fiber)
    requires Wired(s) && x in s.fibers && Kept(s.fibers[x], g) && Consumable(s, x, g.consumers - s.fibers[x].consumers)
    ensures var w := s.(fibers := s.fibers[x := g]);
      Known(s, x) && FiberOk(w, x) && Local(s, w, x) && Floor(s, w, x) && OnlyBonds(s, w, x)
  {
    hide SameBond, Lowered, FiberOk, ProvidedBy, OnlyBonds, SameView;
    var w := s.(fibers := s.fibers[x := g]);
    KnownFiber(s, x);
    if s.fibers[x].state != Inactive {
      AbleFiber(s, x);
    }
    FiberStays(s, w, x);
    SameBonds(s, w, x);
    SameBondsOnly(s, w, x);
  }

  // ---------------------------------------------------------------------------------------------
  // Loading

  function Started(f: Fiber, view: map<Key, FiberId>): Fiber {
    f.(state := Loading, hasError := false, applyFailed := false, committed := view)
  }

  function AfterStart(s: Moment, x: FiberId): Moment
    requires x in s.fibers && Known(s, x)
  {
    s.(fibers := s.fibers[x := Started(s.fibers[x], Resolution(s.bonds, x, PartOf(s, x)))], work := s.work + [x])
  }

  lemma QueueOne(work: seq<FiberId>, x: FiberId)
    ensures multiset(work + [x])[x] == multiset(work)[x] + 1
    ensures forall y | y != x :: multiset(work + [x])[y] == multiset(work)[y]
  {
    assert multiset(work + [x]) == multiset(work) + multiset{x};
  }

  lemma ResolvedLive(bs: Bonds, x: FiberId, p: Part)
    ensures Live(bs, Resolution(bs, x, p))
  {}

  /** The state after a load is well formed, and the fiber has what it costs to have a fresh load. */
  lemma StartWired(s: Moment, x: FiberId)
    requires Wired(s) && x in s.fibers && Able(s, x) && s.fibers[x].state == Inactive
    ensures var w := AfterStart(s, x);
      Wired(w) && Local(s, w, x) && OnlyBonds(s, w, x) && Credit(w, x) == Credit(s, x) && Cost(w, x) <= Cost(s, x) + 2
  {
    hide Sorted, ProvidedBy, SameBond;
    var w := AfterStart(s, x);
    QueueOne(s.work, x);
    ResolvedLive(s.bonds, x, PartOf(s, x));
    assert FiberOk(s, x);
    assert forall c :: Rank(w, c) == Rank(s, c);
    assert FiberOk(w, x) by {
      forall k | k in w.fibers[x].committed ensures ProvidedBy(w, w.fibers[x].committed[k], k) {
        assert ProvidedBy(s, s.bonds[k].provider, k);
        SameProvider(s, w, s.bonds[k].provider, k);
      }
    }
    SameBondsOnly(s, w, x);
    LocalWired(s, w, x);
  }

  lemma SameProvider(s: Moment, w: Moment, p: FiberId, k: Key)
    requires w.parts == s.parts && w.made == s.made && w.idle == s.idle
    ensures ProvidedBy(w, p, k) <==> ProvidedBy(s, p, k)
  {}

  /** Above the floor, a load follows. */
  lemma StartStep(s: Moment, x: FiberId)
    requires Wired(s) && x in s.fibers && Able(s, x) && s.fibers[x].state == Inactive
    ensures var w := AfterStart(s, x);
      Wired(w) && Sinks(s, w) && (s.low < Rank(s, x) ==> Follows(s, w, {}))
  {
    hide Wired, OnlyBonds, Credit, Cost, Pending, Resolution, Follows;
    var w := AfterStart(s, x);
    StartWired(s, x);
    if s.low < Rank(s, x) {
      LocalFollows(s, w, x, {});
    }
    assert Actives(w) == Actives(s) && Leaving(w) == Leaving(s);
  }

  // ---------------------------------------------------------------------------------------------
  // Withdrawing

  /** A pending apply is diverted: it completes cancelled. */
  lemma DivertStep(s: Moment, x: FiberId, g: Fiber)
    requires Wired(s) && x in s.fibers && s.fibers[x].state == Loading && s.low < Rank(s, x)
    requires g == s.fibers[x].(state := Unloading)
    ensures var w := s.(fibers := s.fibers[x := g]); Wired(w) && Follows(s, w, {})
  {
    hide OnlyBonds, Follows, SameBond, Sorted, ProvidedBy, FiberOk, Lowered;
    var w := s.(fibers := s.fibers[x := g]);
    KnownFiber(s, x);
    AbleFiber(s, x);
    FiberStays(s, w, x);
    SameSize(s, w, x);
    SameBondsOnly(s, w, x);
    LocalWired(s, w, x);
    LocalFollows(s, w, x, {});
  }

  function RetireBonds(bs: Bonds, x: FiberId): Bonds {
    map k | k in bs :: if bs[k].provider == x then bs[k].(retiring := true) else bs[k]
  }

  /** An active fiber begins to leave, guarded by at most every fiber there is. */
  lemma FlipStep(s: Moment, x: FiberId, guards: nat)
    requires Wired(s) && x in s.fibers && s.fibers[x].state == Active && s.low < Rank(s, x) && guards <= |s.fibers|
    ensures
      var w := s.(fibers := s.fibers[x := s.fibers[x].(state := Unloading, remaining := s.fibers[x].remaining + guards)],
                  bonds := RetireBonds(s.bonds, x));
      Wired(w) && Follows(s, w, {}) && Credit(w, x) + 1 <= Credit(s, x) && Actives(w) < Actives(s)
  {
    hide OnlyBonds, Follows, Sorted, ProvidedBy, FiberOk, Lowered, RetireBonds, SameBond;
    var w := s.(fibers := s.fibers[x := s.fibers[x].(state := Unloading, remaining := s.fibers[x].remaining + guards)],
                bonds := RetireBonds(s.bonds, x));
    KnownFiber(s, x);
    AbleFiber(s, x);
    FiberStays(s, w, x);
    RetiredBonds(s, w, x);
    SameSize(s, w, x);
    LocalWired(s, w, x);
    LocalFollows(s, w, x, {});
    assert x in Actives(s) && x !in Actives(w);
  }

  /** A consumer ranks above its provider. */
  lemma ConsumersAbove(s: Moment, x: FiberId)
    requires Wired(s) && x in s.fibers
    ensures forall c | c in s.fibers[x].consumers :: Rank(s, x) < Rank(s, c)
  {
    assert FiberOk(s, x);
  }

  lemma OwnBonds(s: Moment, x: FiberId)
    requires Wired(s) && Known(s, x)
    ensures forall k | k in s.bonds && s.bonds[k].provider == x :: k in PartOf(s, x).provide
  {
    assert forall k | k in s.bonds :: ProvidedBy(s, s.bonds[k].provider, k);
  }

  lemma RetiredBonds(s: Moment, w: Moment, x: FiberId)
    requires Wired(s) && Known(s, x) && w.bonds == RetireBonds(s.bonds, x)
    ensures OnlyBonds(s, w, x)
    ensures forall k | k in w.bonds :: k in s.bonds && w.bonds[k].provider == s.bonds[k].provider
  {
    hide Sorted, FiberOk;
    forall k | k !in PartOf(s, x).provide ensures SameBond(s.bonds, w.bonds, k) {
      assert k in s.bonds ==> ProvidedBy(s, s.bonds[k].provider, k);
    }
  }

  // ---------------------------------------------------------------------------------------------
  // Teardown

  function Unbind(bs: Bonds, x: FiberId): Bonds {
    map k | k in bs && bs[k].provider != x :: bs[k]
  }

  lemma UnboundBonds(s: Moment, w: Moment, x: FiberId)
    requires Wired(s) && Known(s, x) && w.bonds == Unbind(s.bonds, x)
    ensures OnlyBonds(s, w, x)
    ensures forall k | k in w.bonds :: k in s.bonds && w.bonds[k].provider == s.bonds[k].provider
  {
    hide Sorted, FiberOk;
    forall k | k !in PartOf(s, x).provide ensures SameBond(s.bonds, w.bonds, k) {
      assert k in s.bonds ==> ProvidedBy(s, s.bonds[k].provider, k);
    }
  }

  function Least(a: nat, b: nat): nat {
    if a <= b then a else b
  }

  function AfterTeardown(s: Moment, x: FiberId): Moment
    requires x in s.fibers
  {
    s.(fibers := s.fibers[x := s.fibers[x].(state := Inactive, committed := map[])],
       bonds := Unbind(s.bonds, x), low := Least(s.low, Rank(s, x)))
  }

  lemma TeardownCost(s: Moment, x: FiberId)
    requires x in s.fibers && s.fibers[x].state == Unloading
    ensures var w := AfterTeardown(s, x);
      Cost(w, x) + 4 <= Cost(s, x) && Lowered(s, w, x) && Credit(w, x) == Credit(s, x) + 1
  {
    hide Unbind;
  }

  /** A withdrawing fiber finishes: it may now load once more, and nobody below it is disturbed. */
  lemma TeardownStep(s: Moment, x: FiberId)
    requires Wired(s) && x in s.fibers && s.fibers[x].state == Unloading
    ensures var w := AfterTeardown(s, x);
      Wired(w) && Follows(s, w, {x}) && Actives(w) == Actives(s) && Leaving(w) < Leaving(s)
      && w.low <= Rank(w, x) && x in w.fibers
  {
    hide OnlyBonds, Follows, Sorted, ProvidedBy, FiberOk, Lowered, Unbind, SameBond, Cost, Credit;
    var w := AfterTeardown(s, x);
    KnownFiber(s, x);
    AbleFiber(s, x);
    FiberStays(s, w, x);
    UnboundBonds(s, w, x);
    ViewAbove(s, w, x, x);
    TeardownCost(s, x);
    LocalWired(s, w, x);
    LocalFollows(s, w, x, {x});
    assert x in Leaving(s) && x !in Leaving(w);
    assert Actives(w) == Actives(s);
  }

  lemma SinksAfter(s: Moment, v: Moment, w: Moment)
    requires Actives(v) == Actives(s) && Leaving(v) < Leaving(s) && Sinks(v, w)
    ensures Sinks(s, w)
  {
    hide Actives, Leaving;
  }

  /** A fiber that finished at the floor and loads again still counts as lowered: what finishing saved
      is more than what the load costs. */
  lemma Rekindle(s: Moment, v: Moment, u: Moment, x: FiberId)
    requires Wired(s) && x in s.fibers && s.fibers[x].state == Unloading && v == AfterTeardown(s, x)
    requires Wired(v) && Wired(u) && Follows(s, u, {x}) && Follows(v, u, {}) && Rank(s, x) <= u.low
    requires Known(u, x)
    ensures u.fibers[x].state == Inactive
    ensures Follows(s, AfterStart(u, x), {x})
  {
    hide Wired, OnlyBonds, Credit, Cost, Local, Floor, Rank, FiberOk, Lowered, Follows, Queued, Actives, Known;
    AbleFiber(s, x);
    SameMembers(s, u, {x});
    RekindleCost(s, v, u, x);
    var w := AfterStart(u, x);
    forall y | y in s.fibers ensures Floor(s, w, y) && y in u.fibers && y in w.fibers && Credit(w, y) <= Credit(s, y) + if y in {x} then 1 else 0 {
      StartMembers(s, u, x);
      StartFloor(s, u, w, x, y);
    }
    StartPhases(u, x);
    RekindleFollows(s, u, x);
  }

  lemma StartMembers(s: Moment, u: Moment, x: FiberId)
    requires Follows(s, u, {x}) && x in u.fibers && Known(u, x)
    ensures u.fibers.Keys == s.fibers.Keys == AfterStart(u, x).fibers.Keys
  {}

  lemma RekindleFollows(s: Moment, u: Moment, x: FiberId)
    requires Follows(s, u, {x}) && x in u.fibers && Known(u, x) && Rank(s, x) == u.low
    requires Lowered(s, AfterStart(u, x), x)
    requires var w := AfterStart(u, x);
      forall y | y in s.fibers :: y in w.fibers && Floor(s, w, y) && Credit(w, y) <= Credit(s, y) + if y in {x} then 1 else 0
    requires Actives(AfterStart(u, x)) <= Actives(u) && (Queued(u) ==> Queued(AfterStart(u, x)))
    ensures Follows(s, AfterStart(u, x), {x})
  {
    hide Floor, Credit, Rank, Lowered, Queued, Actives, Resolution;
    StartMembers(s, u, x);
  }

  lemma RekindleCost(s: Moment, v: Moment, u: Moment, x: FiberId)
    requires Wired(s) && x in s.fibers && s.fibers[x].state == Unloading && v == AfterTeardown(s, x)
    requires Wired(v) && Wired(u) && Follows(v, u, {}) && Rank(s, x) <= u.low && Able(u, x)
    ensures x in u.fibers && u.fibers[x].state == Inactive && Rank(s, x) == u.low
    ensures
      var w := AfterStart(u, x);
      Lowered(s, w, x) && Local(u, w, x) && OnlyBonds(u, w, x) && Credit(w, x) == Credit(u, x)
  {
    hide Wired, OnlyBonds, Credit, Cost, Pending, Resolution, Unbind, Sorted, SameView, Queued, Actives, Floor, Rank, FiberOk, Follows;
    TeardownCost(s, x);
    StillInactive(s, v, u, x);
    StartWired(u, x);
    UntouchedCost(v, u, x);
  }

  lemma StartPhases(u: Moment, x: FiberId)
    requires x in u.fibers && Known(u, x)
    ensures Actives(AfterStart(u, x)) <= Actives(u) && (Queued(u) ==> Queued(AfterStart(u, x)))
  {}

  lemma StillInactive(s: Moment, v: Moment, u: Moment, x: FiberId)
    requires Wired(s) && x in s.fibers && v == AfterTeardown(s, x)
    requires Wired(v) && Follows(v, u, {}) && Rank(s, x) <= u.low
    ensures Untouched(v, u, x) && SameView(v, u, x) && Rank(s, x) == u.low && u.fibers[x].state == Inactive
  {
    hide Wired, Credit, Cost, Pending, Unbind, Sorted, SameView, Queued, Actives;
    KnownFiber(v, x);
    assert Floor(v, u, x);
  }

  lemma SameFloorView(s: Moment, u: Moment, w: Moment, y: FiberId)
    requires Floor(s, u, y) && w.low == u.low && w.bonds == u.bonds
    ensures Rank(s, y) <= w.low && Known(s, y) ==> SameView(s, w, y)
  {}

  lemma SameFloor(s: Moment, u: Moment, w: Moment, y: FiberId)
    requires Floor(s, u, y) && w.low == u.low && w.bonds == u.bonds
    requires y in u.fibers && y in w.fibers && w.fibers[y] == u.fibers[y] && Pending(w, y) == Pending(u, y)
    ensures Floor(s, w, y)
  {
    hide Pending, Rank;
    SameFloorView(s, u, w, y);
  }

  lemma StartFloor(s: Moment, u: Moment, w: Moment, x: FiberId, y: FiberId)
    requires Follows(s, u, {x}) && x in u.fibers && y in s.fibers && w.low == u.low && w.bonds == u.bonds
    requires Local(u, w, x) && Credit(w, x) == Credit(u, x) && Lowered(s, w, x) && Rank(s, x) == u.low
    ensures Floor(s, w, y) && Credit(w, y) <= Credit(s, y) + if y in {x} then 1 else 0
  {
    hide Cost, Rank, Queued, Actives, Pending, Lowered, Credit, SameView;
    assert Floor(s, u, y);
    assert Credit(u, y) <= Credit(s, y) + (if y in {x} then 1 else 0);
    if y != x {
      SameFloor(s, u, w, y);
      SameCredit(u, w, x, y);
    } else {
      SameFloorView(s, u, w, y);
    }
  }

  lemma SameCredit(s: Moment, w: Moment, x: FiberId, y: FiberId)
    requires Local(s, w, x) && y in s.fibers && y != x
    ensures Credit(w, y) == Credit(s, y)
  {
    hide Pending;
    SameSize(s, w, x);
  }

  // ---------------------------------------------------------------------------------------------
  // A completed apply

  /** The effect of a completed apply on its own fiber, before anybody is notified. */
  ghost predicate Popped(s: Moment, v: Moment, x: FiberId) {
    && SameCast(s, v) && x in s.fibers && v.low == Rank(s, x) && Known(s, x)
    && (forall y | y in s.fibers && y != x :: Floor(s, v, y) && Untouched(s, v, y) && Credit(v, y) <= Credit(s, y))
    && Cost(v, x) < Cost(s, x) && v.fibers[x].state != Unloading && Credit(v, x) <= Credit(s, x) + |s.fibers| + 2
  }

  function Slack(s: Moment): nat {
    4 * |s.fibers| + 13
  }

  /** How far a completed apply has come: at the lowest rank it disturbed the cost went down somewhere
      and up nowhere, and above that rank it went up by a bounded amount. */
  ghost predicate Progress(s: Moment, w: Moment) {
    && SameCast(s, w)
    && (forall y | y in s.fibers && Rank(s, y) <= w.low :: Cost(w, y) <= Cost(s, y))
    && (exists y :: y in s.fibers && Rank(s, y) == w.low && Cost(w, y) < Cost(s, y))
    && (forall y | y in s.fibers :: Cost(w, y) <= Cost(s, y) + Slack(s))
  }

  lemma CostCredit(s: Moment, x: FiberId)
    requires x in s.fibers
    ensures Cost(s, x) <= 2 * Credit(s, x) + 5
    ensures 2 * Credit(s, x) <= Cost(s, x) + 2 * (|s.fibers| + 2)
  {
    hide Live;
  }

  lemma SameCount(s: Moment, w: Moment)
    requires SameCast(s, w)
    ensures |w.fibers| == |s.fibers|
  {
    assert |s.fibers| == |s.fibers.Keys| && |w.fibers| == |w.fibers.Keys|;
  }

  lemma ProgressAt(s: Moment, v: Moment, w: Moment, x: FiberId, y: FiberId)
    requires Wired(s) && Wired(v) && Popped(s, v, x) && Follows(v, w, {}) && y in s.fibers
    ensures Rank(s, y) <= w.low ==> Cost(w, y) <= Cost(s, y)
    ensures Rank(s, y) == w.low && (y == x || Lowered(v, w, y)) ==> Cost(w, y) < Cost(s, y)
    ensures Cost(w, y) <= Cost(s, y) + Slack(s)
  {
    hide Wired, Credit, Cost, Pending, Sorted, SameView, Queued, Actives;
    KnownFiber(s, y);
    KnownFiber(v, y);
    assert Floor(v, w, y);
    if Rank(s, y) <= w.low {
      if y != x {
        UntouchedCost(s, v, y);
      }
      if Untouched(v, w, y) {
        UntouchedCost(v, w, y);
      }
    }
    SameCount(s, w);
    CostCredit(s, y);
    CostCredit(w, y);
    assert Credit(w, y) <= Credit(v, y);
  }

  /** Whatever the notifications did, a completed apply made progress. */
  lemma PopProgress(s: Moment, v: Moment, w: Moment, x: FiberId)
    requires Wired(s) && Wired(v) && Popped(s, v, x) && Follows(v, w, {})
    ensures Progress(s, w)
  {
    hide Wired, Credit, Cost, Rank, Pending, Floor, Lowered, Queued, Actives;
    assert SameCast(s, w);
    forall y | y in s.fibers
      ensures Rank(s, y) <= w.low ==> Cost(w, y) <= Cost(s, y)
      ensures Cost(w, y) <= Cost(s, y) + Slack(s)
    {
      ProgressAt(s, v, w, x, y);
    }
    if w.low < v.low {
      var y :| Rank(v, y) == w.low && Lowered(v, w, y);
      SameRank(s, v, y);
      LoweredKnown(v, w, y);
      ProgressAt(s, v, w, x, y);
    } else {
      ProgressAt(s, v, w, x, x);
    }
  }
}
