/** The reference machine's handlers on values: a completed apply, a mount, an erasure. */
module OracleHandlers {
  import opened Oracle
  import opened OracleSteps

  lemma TailPending(work: seq<FiberId>)
    requires work != []
    ensures multiset(work[1..])[work[0]] + 1 == multiset(work)[work[0]]
    ensures forall y | y != work[0] :: multiset(work[1..])[y] == multiset(work)[y]
    ensures forall y | y in work[1..] :: y in work
    ensures forall y | y in work && y != work[0] :: y in work[1..]
  {
    assert work == [work[0]] + work[1..];
  }

  /** The fiber at the head of the queue is the one that moves. */
  ghost predicate Popping(s: Moment, x: FiberId) {
    s.work != [] && s.work[0] == x && x in s.fibers && Able(s, x) && s.low == Rank(s, x)
  }

  lemma PopLocal(s: Moment, v: Moment, x: FiberId)
    requires Wired(s) && Popping(s, x) && Local(s, v, x) && OnlyBonds(s, v, x) && v.low == s.low
    requires Cost(v, x) < Cost(s, x) && v.fibers[x].state != Unloading && Credit(v, x) <= Credit(s, x) + |s.fibers| + 2
    ensures Popped(s, v, x)
  {
    hide Wired, OnlyBonds, Cost, Credit, Floor, Untouched, Rank, Known;
    SameSize(s, v, x);
    forall y | y in s.fibers && y != x ensures Floor(s, v, y) && Untouched(s, v, y) && Credit(v, y) <= Credit(s, y) {
      OthersFloor(s, v, x, y);
    }
  }

  // ---------------------------------------------------------------------------------------------
  // An apply that does not publish

  predicate Rested(f: Fiber, g: Fiber) {
    && g.slot == f.slot && g.part == f.part && g.config == f.config
    && g.state == Inactive && g.committed == map[] && g.remaining == f.remaining && g.consumers == f.consumers
  }

  function AfterLand(s: Moment, x: FiberId, g: Fiber): Moment
    requires s.work != []
  {
    s.(work := s.work[1..], fibers := s.fibers[x := g], bonds := Unbind(s.bonds, x))
  }

  lemma LandWired(s: Moment, x: FiberId, g: Fiber)
    requires Wired(s) && Popping(s, x) && Rested(s.fibers[x], g)
    ensures var v := AfterLand(s, x, g);
      Wired(v) && Local(s, v, x) && OnlyBonds(s, v, x) && (Queued(s) ==> Queued(v))
  {
    hide OnlyBonds, Sorted, ProvidedBy, FiberOk, Unbind, SameBond, Cost, Credit;
    var v := AfterLand(s, x, g);
    TailPending(s.work);
    KnownFiber(s, x);
    FiberStays(s, v, x);
    UnboundBonds(s, v, x);
    LocalWired(s, v, x);
  }

  lemma LandCost(s: Moment, x: FiberId, g: Fiber)
    requires Popping(s, x) && Rested(s.fibers[x], g)
    ensures var v := AfterLand(s, x, g);
      Cost(v, x) + (if Live(s.bonds, s.fibers[x].committed) then 2 else 3) <= Cost(s, x) && Credit(v, x) <= Credit(s, x) + 1
  {
    hide Unbind;
    TailPending(s.work);
    assert |s.fibers[x := g]| == |s.fibers| by {
      assert s.fibers[x := g].Keys == s.fibers.Keys;
      assert |s.fibers| == |s.fibers.Keys| && |s.fibers[x := g]| == |s.fibers[x := g].Keys|;
    }
  }

  /** An apply that fails, was cancelled or is stale lands below where it was. */
  lemma LandPop(s: Moment, x: FiberId, g: Fiber)
    requires Wired(s) && Popping(s, x) && Rested(s.fibers[x], g)
    ensures Popped(s, AfterLand(s, x, g), x)
  {
    hide Wired, OnlyBonds, Cost, Credit, Unbind, Local;
    LandWired(s, x, g);
    LandCost(s, x, g);
    PopLocal(s, AfterLand(s, x, g), x);
  }

  /** A stale apply may load again at once: its view is fresh then. */
  lemma LandReload(s: Moment, x: FiberId, g: Fiber)
    requires Wired(s) && Popping(s, x) && Rested(s.fibers[x], g) && !Live(s.bonds, s.fibers[x].committed)
    ensures Known(AfterLand(s, x, g), x) && Popped(s, AfterStart(AfterLand(s, x, g), x), x)
  {
    hide Wired, OnlyBonds, Cost, Credit, Unbind, Resolution, Live, Sorted;
    var v := AfterLand(s, x, g);
    LandWired(s, x, g);
    LandCost(s, x, g);
    StartWired(v, x);
    var w := AfterStart(v, x);
    assert w.bonds == v.bonds;
    BondsOnly(s, v, w, x);
    LocalTwice(s, v, w, x);
    PopLocal(s, w, x);
  }

  lemma BondsOnly(s: Moment, v: Moment, w: Moment, x: FiberId)
    requires Known(s, x) && OnlyBonds(s, v, x) && w.bonds == v.bonds
    ensures OnlyBonds(s, w, x)
  {}

  lemma LocalTwice(s: Moment, v: Moment, w: Moment, x: FiberId)
    requires Local(s, v, x) && Local(v, w, x)
    ensures Local(s, w, x)
  {
    hide Pending;
    assert s.fibers[x := v.fibers[x]][x := w.fibers[x]] == s.fibers[x := w.fibers[x]];
  }

  // ---------------------------------------------------------------------------------------------
  // Publication

  function Bind(bs: Bonds, ks: seq<Key>, x: FiberId): Bonds {
    bs + (map k | k in ks :: Bond(x, false))
  }

  function AfterPublish(s: Moment, x: FiberId): Moment
    requires s.work != [] && x in s.fibers && Known(s, x)
  {
    s.(work := s.work[1..], fibers := s.fibers[x := s.fibers[x].(state := Active)], bonds := Bind(s.bonds, PartOf(s, x).provide, x))
  }

  lemma BoundBonds(s: Moment, w: Moment, x: FiberId)
    requires Able(s, x) && w.bonds == Bind(s.bonds, PartOf(s, x).provide, x)
    ensures OnlyBonds(s, w, x)
    ensures forall k | k in w.bonds :: (k in s.bonds && w.bonds[k].provider == s.bonds[k].provider) || ProvidedBy(s, w.bonds[k].provider, k)
  {}

  lemma PublishCost(s: Moment, x: FiberId)
    requires Popping(s, x) && s.fibers[x].state != Unloading
    requires Live(AfterPublish(s, x).bonds, s.fibers[x].committed) == Live(s.bonds, s.fibers[x].committed)
    ensures var v := AfterPublish(s, x);
      Cost(v, x) < Cost(s, x) && Credit(v, x) <= Credit(s, x) + |s.fibers| + 2
  {
    hide Bind, Live;
    TailPending(s.work);
    var v := AfterPublish(s, x);
    assert |v.fibers| == |s.fibers| by {
      assert v.fibers.Keys == s.fibers.Keys;
      assert |s.fibers| == |s.fibers.Keys| && |v.fibers| == |v.fibers.Keys|;
    }
  }

  lemma PublishPop(s: Moment, x: FiberId)
    requires Wired(s) && Popping(s, x) && s.fibers[x].state != Unloading
    ensures var v := AfterPublish(s, x); Wired(v) && Popped(s, v, x) && (Queued(s) ==> Queued(v))
  {
    hide OnlyBonds, Sorted, ProvidedBy, FiberOk, Bind, SameBond, Cost, Credit, Popped;
    var v := AfterPublish(s, x);
    TailPending(s.work);
    KnownFiber(s, x);
    FiberStays(s, v, x);
    BoundBonds(s, v, x);
    LocalWired(s, v, x);
    ViewAbove(s, v, x, x);
    SameViewLive(s, v, x);
    PublishCost(s, x);
    PopLocal(s, v, x);
  }

  /** A committed provider ranks below. */
  lemma CommittedBelow(s: Moment, x: FiberId, k: Key)
    requires Wired(s) && x in s.fibers && k in s.fibers[x].committed
    ensures Known(s, x) && Over(s, s.fibers[x].committed[k], x)
  {
    hide Sorted, Rank;
    assert FiberOk(s, x);
    FeedsUp(s, s.fibers[x].committed[k], x, k);
  }

  lemma OneConsumer(s: Moment, p: FiberId, x: FiberId, g: Fiber)
    requires p in s.fibers && Over(s, p, x) && g == s.fibers[p].(consumers := s.fibers[p].consumers + {x})
    ensures Consumable(s, p, g.consumers - s.fibers[p].consumers)
  {}

  lemma AtFloor(s: Moment, v: Moment, u: Moment, x: FiberId)
    requires Popped(s, v, x) && Follows(v, u, {})
    ensures x in u.fibers && u.low <= Rank(u, x)
  {}

  lemma QueuedKept(v: Moment, w: Moment)
    requires Follows(v, w, {})
    ensures Queued(v) ==> Queued(w)
  {}

  lemma HeadAble(s: Moment)
    requires Wired(s) && s.work != []
    ensures Able(s, s.work[0])
  {}

  lemma TailWired(s: Moment)
    requires Wired(s) && s.work != []
    ensures Wired(s.(work := s.work[1..]))
  {
    TailPending(s.work);
    WiredSame(s, s.(work := s.work[1..]));
  }

  lemma LowAnywhere(s: Moment, low: nat)
    requires Wired(s)
    ensures Wired(s.(low := low))
  {
    WiredSame(s, s.(low := low));
  }

  lemma WiredSame(s: Moment, w: Moment)
    requires Wired(s) && w == s.(work := w.work, low := w.low) && forall x | x in w.work :: x in s.work
    ensures Wired(w)
  {
    hide Sorted, Over;
    OrderKept(s, w);
    forall x | x in w.fibers ensures FiberOk(w, x) {
      FiberSame(s, w, x);
    }
    forall k | k in w.bonds ensures ProvidedBy(w, w.bonds[k].provider, k) {
      assert ProvidedBy(s, s.bonds[k].provider, k);
    }
  }

  lemma TailQueued(s: Moment)
    requires s.work != [] && s.work[0] !in s.fibers
    ensures Queued(s) ==> Queued(s.(work := s.work[1..]))
  {
    TailPending(s.work);
  }

  /** Progress does not depend on where the floor was. */
  lemma LowIrrelevant(s: Moment, low: nat, w: Moment)
    ensures Progress(s.(low := low), w) ==> Progress(s, w)
    ensures Queued(s.(low := low)) == Queued(s)
  {
    hide Cost, Rank;
    var u := s.(low := low);
    if Progress(u, w) {
      forall x | x in s.fibers ensures Rank(u, x) == Rank(s, x) && Cost(u, x) == Cost(s, x) {
        CostLow(s, low, x);
      }
      var y :| y in u.fibers && Rank(u, y) == w.low && Cost(w, y) < Cost(u, y);
      assert y in s.fibers && Rank(s, y) == w.low && Cost(w, y) < Cost(s, y);
    }
  }

  lemma CostLow(s: Moment, low: nat, x: FiberId)
    requires x in s.fibers
    ensures Rank(s.(low := low), x) == Rank(s, x) && Cost(s.(low := low), x) == Cost(s, x)
  {
    hide Live;
  }

  // ---------------------------------------------------------------------------------------------
  // Mounting and erasing

  function Fresh(slot: Slot, part: char, config: string): Fiber {
    Fiber(slot, part, config, Inactive, false, false, 0, map[], {}, 0)
  }

  function AfterMount(s: Moment, id: FiberId, slot: Slot, part: char, config: string): Moment {
    s.(made := s.made[id := part], fibers := s.fibers[id := Fresh(slot, part, config)], low := 0)
  }

  /** The same moment, with its fibers put in another order. */
  function Reordered(s: Moment, rank: map<FiberId, nat>, idle: set<FiberId>): Moment {
    s.(rank := rank, idle := idle)
  }

  lemma MountStep(s: Moment, id: FiberId, slot: Slot, part: char, config: string, w: Moment)
    requires Wired(s) && id !in s.made && part in s.parts
    requires Wired(w) && w == Reordered(AfterMount(s, id, slot, part, config), w.rank, w.idle)
    ensures Known(w, id) && 0 < Rank(w, id) && (Queued(s) ==> Queued(w)) && id !in s.fibers
  {
    assert Sorted(w);
    if id in s.fibers {
      KnownFiber(s, id);
    }
  }

  lemma Recorded(s: Moment, w: Moment, id: FiberId, slot: Slot, part: char, config: string)
    requires w == Reordered(AfterMount(s, id, slot, part, config), w.rank, w.idle)
    ensures w.made == s.made[id := part] && w.fibers == s.fibers[id := Fresh(slot, part, config)] && id in w.fibers
  {}

  lemma EraseStep(s: Moment, id: FiberId)
    requires Wired(s)
    ensures Wired(s.(fibers := s.fibers - {id})) && (Queued(s) ==> Queued(s.(fibers := s.fibers - {id})))
  {
    hide Sorted;
    var w := s.(fibers := s.fibers - {id});
    OrderKept(s, w);
    forall x | x in w.fibers ensures FiberOk(w, x) {
      FiberSame(s, w, x);
    }
    forall k | k in s.bonds ensures ProvidedBy(w, w.bonds[k].provider, k) {
      assert ProvidedBy(s, s.bonds[k].provider, k);
    }
  }

  lemma ConfigStep(s: Moment, id: FiberId, config: string)
    requires Wired(s) && id in s.fibers
    ensures var w := s.(fibers := s.fibers[id := s.fibers[id].(config := config)]); Wired(w) && (Queued(s) ==> Queued(w))
  {
    hide Sorted;
    var w := s.(fibers := s.fibers[id := s.fibers[id].(config := config)]);
    OrderKept(s, w);
    forall x | x in w.fibers ensures FiberOk(w, x) {
      FiberSame(s, w, x);
    }
    forall k | k in s.bonds ensures ProvidedBy(w, w.bonds[k].provider, k) {
      assert ProvidedBy(s, s.bonds[k].provider, k);
    }
  }

  function Without(ids: seq<FiberId>, id: FiberId): (r: seq<FiberId>)
    ensures forall c :: c in r <==> c in ids && c != id
  {
    if ids == [] then [] else (if ids[0] == id then [] else [ids[0]]) + Without(ids[1..], id)
  }

  // ---------------------------------------------------------------------------------------------
  // What the handlers make of a fiber

  function Diverted(f: Fiber): Fiber {
    if f.state == Loading then f.(state := Unloading) else f
  }

  /** The consumers a withdrawing fiber waits for. */
  function Guards(fibers: map<FiberId, Fiber>, consumers: set<FiberId>): set<FiberId> {
    set c | c in consumers && c in fibers && fibers[c].state != Inactive
  }

  /** The re-entry flag only rises, and a retirement is never lifted. */
  function Raised(f: Fiber, flag: bool): Fiber {
    f.(reactivate := if f.reactivate < 0 then f.reactivate else if flag && f.reactivate < 1 then 1 else f.reactivate)
  }

  function Landed(f: Fiber, failure: bool): Fiber {
    f.(state := Inactive, committed := map[],
       applyFailed := f.applyFailed || failure,
       hasError := f.hasError || failure || f.state == Unloading)
  }

  /** The fiber among the consumers of the providers it committed to. */
  function AfterEnlist(s: Moment, id: FiberId): Moment
    requires id in s.fibers
  {
    s.(fibers := map p | p in s.fibers ::
         if p in s.fibers[id].committed.Values then s.fibers[p].(consumers := s.fibers[p].consumers + {id}) else s.fibers[p])
  }
}
