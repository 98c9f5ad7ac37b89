/**
  The engine's diagnose pass over declared dependencies (src/runtime.cpp:815-951): the strongly
  connected components of the declared graph are reported once each, by a recursive scan over
  tables that are reused from run to run, behind a gate that skips the scan at most mounts.
 */
module Diagnostics {
  import opened Fibers
  import opened Graphs
  import opened Tarjan

  datatype Kind = Conflict | Cycle

  /** What is reported; the sorted, duplicate-free list of fibers is a set here. The signature under
      which a report is remembered is the report itself. */
  datatype Diagnostic = Diagnostic(kind: Kind, key: ServiceId, fibers: set<FiberId>)

  datatype Outbox = Outbox(reported: set<Diagnostic>, sink: seq<Diagnostic>)

  type Components = map<FiberId, Component>

  // ---------------------------------------------------------------------------------------------
  // The declared graph

  /** Fiber `m` needs `n` when `n` provides a key that `m` declares. */
  function Needs(cs: Components): Links {
    set m, n | m in cs && n in cs && cs[m].Keys() * cs[n].provide != {} :: (m, n)
  }

  /** A dependency cycle: a component of more than one fiber. */
  ghost predicate IsCycle(cs: Components, c: set<FiberId>) {
    IsComponent(Needs(cs), cs.Keys, c) && |c| > 1
  }

  function CycleReport(c: set<FiberId>): Diagnostic {
    Diagnostic(Cycle, ServiceId("", 0), c)
  }

  function Announce(box: Outbox, d: Diagnostic): Outbox {
    if d in box.reported then box else Outbox(box.reported + {d}, box.sink + [d])
  }

  function Ids(order: seq<FiberId>, c: set<nat>): set<FiberId> {
    set p | p in c && p < |order| :: order[p]
  }

  /** The reports of a scan: every group of more than one fiber, in discovery order. */
  function Announced(box: Outbox, order: seq<FiberId>, comps: seq<set<nat>>): Outbox {
    if comps == [] then box
    else
      var rest := Announced(box, order, comps[..|comps| - 1]);
      var c := comps[|comps| - 1];
      if |c| > 1 then Announce(rest, CycleReport(Ids(order, c))) else rest
  }

  /** Nothing is ever delivered twice. */
  ghost predicate Delivered(box: Outbox) {
    && (forall d :: d in box.reported <==> d in box.sink)
    && (forall i, j | 0 <= i < j < |box.sink| :: box.sink[i] != box.sink[j])
  }

  lemma AnnounceDelivers(box: Outbox, d: Diagnostic)
    requires Delivered(box)
    ensures Delivered(Announce(box, d))
  {
    var b := Announce(box, d);
    if d !in box.reported {
      assert b.sink[|box.sink|] == d;
      forall x | x in b.reported ensures x in b.sink {
        assert x in box.sink ==> x in b.sink;
      }
    }
  }

  lemma {:induction false} AnnouncedDelivers(box: Outbox, order: seq<FiberId>, comps: seq<set<nat>>)
    requires Delivered(box)
    ensures Delivered(Announced(box, order, comps)) && box.sink <= Announced(box, order, comps).sink
  {
    hide Delivered;
    if comps != [] {
      AnnouncedDelivers(box, order, comps[..|comps| - 1]);
      AnnounceDelivers(Announced(box, order, comps[..|comps| - 1]), CycleReport(Ids(order, comps[|comps| - 1])));
    }
  }

  lemma {:induction false} AnnouncedExactly(box: Outbox, order: seq<FiberId>, comps: seq<set<nat>>, d: Diagnostic)
    ensures d in Announced(box, order, comps).reported <==>
      d in box.reported || exists i :: 0 <= i < |comps| && |comps[i]| > 1 && d == CycleReport(Ids(order, comps[i]))
  {
    if comps != [] {
      var rest := comps[..|comps| - 1];
      AnnouncedExactly(box, order, rest, d);
      if i :| 0 <= i < |comps| && |comps[i]| > 1 && d == CycleReport(Ids(order, comps[i])) {
        assert i < |rest| ==> comps[i] == rest[i];
      }
      if i :| 0 <= i < |rest| && |rest[i]| > 1 && d == CycleReport(Ids(order, rest[i])) {
        assert comps[i] == rest[i];
      }
    }
  }

  // ---------------------------------------------------------------------------------------------
  // Positions and fibers

  ghost predicate Ascending(order: seq<FiberId>) {
    forall i, j | 0 <= i < j < |order| :: order[i] < order[j]
  }

  /** The links between positions that the adjacency table spells out. */
  function Spelled(order: seq<FiberId>, adj: seq<seq<FiberId>>): Links {
    set p: nat, q: nat | p < |adj| && q < |order| && order[q] in adj[p] :: (p, q)
  }

  /** The tables describe the declared graph. */
  ghost predicate Tabled(cs: Components, order: seq<FiberId>, adj: seq<seq<FiberId>>) {
    && Ascending(order) && (forall x :: x in order <==> x in cs)
    && |adj| == |order|
    && (forall p, n | 0 <= p < |adj| :: n in adj[p] <==> n in cs && cs[order[p]].Keys() * cs[n].provide != {})
  }

  lemma SpelledNeeds(cs: Components, order: seq<FiberId>, adj: seq<seq<FiberId>>, p: nat, q: nat)
    requires Tabled(cs, order, adj) && p < |order| && q < |order|
    ensures (p, q) in Spelled(order, adj) <==> (order[p], order[q]) in Needs(cs)
  {
    assert order[p] in order && order[q] in order;
  }

  /** A path of positions and the path of fibers it stands for. */
  ghost predicate Matches(order: seq<FiberId>, at: seq<nat>, ids: seq<nat>) {
    && |at| == |ids|
    && (forall i | 0 <= i < |at| :: at[i] < |order| && order[at[i]] == ids[i])
  }

  lemma {:induction false} PathOut(cs: Components, order: seq<FiberId>, adj: seq<seq<FiberId>>, path: seq<nat>)
    requires Tabled(cs, order, adj) && Path(Spelled(order, adj), path) && path[0] < |order|
    ensures exists ids :: Path(Needs(cs), ids) && Matches(order, path, ids)
    decreases |path|
  {
    hide Needs, Tabled;
    if |path| == 1 {
      assert Path(Needs(cs), [order[path[0]]]) && Matches(order, path, [order[path[0]]]);
    } else {
      var l := |path| - 1;
      PathOut(cs, order, adj, path[..l]);
      var ids :| Path(Needs(cs), ids) && Matches(order, path[..l], ids);
      assert (path[l - 1], path[l]) in Spelled(order, adj);
      Sizes(cs, order, adj);
      SpelledNeeds(cs, order, adj, path[l - 1], path[l]);
      assert path[..l][l - 1] == path[l - 1];
      var all := ids + [order[path[l]]];
      assert Path(Needs(cs), all);
      assert forall i | 0 <= i < l :: path[..l][i] == path[i] && all[i] == ids[i];
      assert Matches(order, path, all);
    }
  }

  lemma Sizes(cs: Components, order: seq<FiberId>, adj: seq<seq<FiberId>>)
    requires Tabled(cs, order, adj)
    ensures |adj| == |order|
  {}

  lemma {:induction false} PathIn(cs: Components, order: seq<FiberId>, adj: seq<seq<FiberId>>, path: seq<nat>)
    requires Tabled(cs, order, adj) && Path(Needs(cs), path) && path[0] in order
    ensures exists back :: Path(Spelled(order, adj), back) && Matches(order, back, path)
    decreases |path|
  {
    hide Needs, Tabled, Spelled;
    if |path| == 1 {
      var p: nat :| p < |order| && order[p] == path[0];
      assert Path(Spelled(order, adj), [p]) && Matches(order, [p], path);
    } else {
      var l := |path| - 1;
      PathIn(cs, order, adj, path[..l]);
      var back :| Path(Spelled(order, adj), back) && Matches(order, back, path[..l]);
      assert (path[l - 1], path[l]) in Needs(cs);
      NeedsInside(cs, order, adj, path[l - 1], path[l]);
      var q: nat :| q < |order| && order[q] == path[l];
      assert path[..l][l - 1] == path[l - 1];
      SpelledNeeds(cs, order, adj, back[l - 1], q);
      var all := back + [q];
      assert Path(Spelled(order, adj), all);
      assert forall i | 0 <= i < l :: path[..l][i] == path[i] && all[i] == back[i];
      assert Matches(order, all, path);
    }
  }

  lemma NeedsInside(cs: Components, order: seq<FiberId>, adj: seq<seq<FiberId>>, a: FiberId, b: FiberId)
    requires Tabled(cs, order, adj) && (a, b) in Needs(cs)
    ensures a in order && b in order
  {}

  lemma ReachSame(cs: Components, order: seq<FiberId>, adj: seq<seq<FiberId>>, p: nat, q: nat)
    requires Tabled(cs, order, adj) && p < |order| && q < |order|
    ensures Reach(Spelled(order, adj), p, q) <==> Reach(Needs(cs), order[p], order[q])
  {
    hide Needs, Spelled, Path;
    if Reach(Spelled(order, adj), p, q) {
      var path :| Via(Spelled(order, adj), path, p, q);
      PathStarts(Spelled(order, adj), path);
      PathOut(cs, order, adj, path);
      var ids :| Path(Needs(cs), ids) && Matches(order, path, ids);
      assert Via(Needs(cs), ids, order[p], order[q]);
    }
    if Reach(Needs(cs), order[p], order[q]) {
      var path :| Via(Needs(cs), path, order[p], order[q]);
      PathStarts(Needs(cs), path);
      assert path[0] in order;
      PathIn(cs, order, adj, path);
      var back :| Path(Spelled(order, adj), back) && Matches(order, back, path);
      Injective(cs, order, adj, back[0], p);
      Injective(cs, order, adj, back[|back| - 1], q);
      assert Via(Spelled(order, adj), back, p, q);
    }
  }

  lemma PathStarts(e: Links, path: seq<nat>)
    requires Path(e, path)
    ensures |path| > 0
  {}

  lemma Injective(cs: Components, order: seq<FiberId>, adj: seq<seq<FiberId>>, p: nat, q: nat)
    requires Tabled(cs, order, adj) && p < |order| && q < |order|
    ensures order[p] == order[q] <==> p == q
  {}

  /** A set of fibers and the set of their positions. */
  ghost predicate Places(order: seq<FiberId>, at: set<nat>, c: set<FiberId>) {
    && (forall p | p in at :: p < |order|)
    && (forall p: nat | p < |order| :: p in at <==> order[p] in c)
    && (forall x | x in c :: x in order)
  }

  /** Components of the tables are components of the declared graph. */
  lemma ComponentSame(cs: Components, order: seq<FiberId>, adj: seq<seq<FiberId>>, at: set<nat>, c: set<FiberId>)
    requires Tabled(cs, order, adj) && Places(order, at, c)
    ensures IsComponent(Spelled(order, adj), Range(|order|), at) <==> IsComponent(Needs(cs), cs.Keys, c)
  {
    hide Reach, Spelled, Needs;
    forall p: nat, q: nat | p < |order| && q < |order|
      ensures Mutual(Spelled(order, adj), p, q) <==> Mutual(Needs(cs), order[p], order[q])
    {
      ReachSame(cs, order, adj, p, q);
      ReachSame(cs, order, adj, q, p);
    }
    SameKeys(cs, order, adj);
    if IsComponent(Needs(cs), cs.Keys, c) {
      var x :| x in c;
      assert x in order;
      var p: nat :| p < |order| && order[p] == x;
      assert p in at;
    }
    if IsComponent(Spelled(order, adj), Range(|order|), at) {
      ComponentOut(cs, order, adj, at, c);
    }
  }

  lemma SameKeys(cs: Components, order: seq<FiberId>, adj: seq<seq<FiberId>>)
    requires Tabled(cs, order, adj)
    ensures forall x :: x in order <==> x in cs.Keys
  {}

  lemma ComponentOut(cs: Components, order: seq<FiberId>, adj: seq<seq<FiberId>>, at: set<nat>, c: set<FiberId>)
    requires Places(order, at, c) && IsComponent(Spelled(order, adj), Range(|order|), at)
    requires forall x :: x in order <==> x in cs.Keys
    requires forall p: nat, q: nat | p < |order| && q < |order| ::
      Mutual(Spelled(order, adj), p, q) <==> Mutual(Needs(cs), order[p], order[q])
    ensures IsComponent(Needs(cs), cs.Keys, c)
  {
    hide Mutual, Spelled, Needs;
    var a :| a in at;
    assert order[a] in c;
    forall x, y | x in c && y in cs.Keys ensures y in c <==> Mutual(Needs(cs), x, y) {
      assert x in order && y in order;
      var p: nat :| p < |order| && order[p] == x;
      var q: nat :| q < |order| && order[q] == y;
      assert p in at;
    }
  }

  lemma IdsPlaces(order: seq<FiberId>, at: set<nat>)
    requires Ascending(order) && forall p | p in at :: p < |order|
    ensures Places(order, at, Ids(order, at))
  {}

  lemma {:induction false} IdsSize(order: seq<FiberId>, at: set<nat>)
    requires Ascending(order) && forall p | p in at :: p < |order|
    ensures |Ids(order, at)| == |at|
  {
    if at != {} {
      var p :| p in at;
      IdsSize(order, at - {p});
      assert Ids(order, at) == Ids(order, at - {p}) + {order[p]};
      assert order[p] !in Ids(order, at - {p});
    } else {
      assert Ids(order, at) == {};
    }
  }

  // ---------------------------------------------------------------------------------------------
  // What a scan reports

  /** A finished scan has reported the dependency cycles, and nothing else. */
  lemma ScanReports(cs: Components, order: seq<FiberId>, adj: seq<seq<FiberId>>, w: Walk, box: Outbox, d: Diagnostic)
    requires Tabled(cs, order, adj) && Walking(Spelled(order, adj), w, {}) && |w.index| == |order|
    requires forall p | 0 <= p < |w.index| :: w.index[p] >= 0
    ensures d in Announced(box, order, w.comps).reported <==>
      d in box.reported || exists c :: IsCycle(cs, c) && d == CycleReport(c)
  {
    hide Tabled, Walking, IsComponent, Spelled, Announced;
    WalkDone(Spelled(order, adj), w);
    AnnouncedExactly(box, order, w.comps, d);
    forall i | 0 <= i < |w.comps| && |w.comps[i]| > 1 ensures IsCycle(cs, Ids(order, w.comps[i])) {
      assert w.comps[i] in w.comps;
      GroupIsCycle(cs, order, adj, w.comps[i]);
    }
    forall c | IsCycle(cs, c) ensures exists i :: 0 <= i < |w.comps| && |w.comps[i]| > 1 && c == Ids(order, w.comps[i]) {
      CycleIsGroup(cs, order, adj, c);
      var at :| IsComponent(Spelled(order, adj), Range(|order|), at) && |at| > 1 && c == Ids(order, at);
      var i :| 0 <= i < |w.comps| && w.comps[i] == at;
    }
  }

  lemma GroupIsCycle(cs: Components, order: seq<FiberId>, adj: seq<seq<FiberId>>, at: set<nat>)
    requires Tabled(cs, order, adj) && IsComponent(Spelled(order, adj), Range(|order|), at) && |at| > 1
    ensures IsCycle(cs, Ids(order, at))
  {
    hide Mutual, Spelled, Needs;
    IdsPlaces(order, at);
    IdsSize(order, at);
    ComponentSame(cs, order, adj, at, Ids(order, at));
  }

  lemma CycleIsGroup(cs: Components, order: seq<FiberId>, adj: seq<seq<FiberId>>, c: set<FiberId>)
    requires Tabled(cs, order, adj) && IsCycle(cs, c)
    ensures exists at :: IsComponent(Spelled(order, adj), Range(|order|), at) && |at| > 1 && c == Ids(order, at)
  {
    hide Mutual, Spelled, Needs;
    var at := set p | p in Range(|order|) && order[p] in c;
    assert Places(order, at, c);
    assert Ids(order, at) == c by {
      forall x | x in c ensures x in Ids(order, at) {
        assert x in order;
        var p: nat :| p < |order| && order[p] == x;
        assert p in at;
      }
    }
    IdsSize(order, at);
    ComponentSame(cs, order, adj, at, c);
  }

  // ---------------------------------------------------------------------------------------------
  // The gate

  /** No key the fiber declares has a provider, itself included. */
  ghost predicate Unprovided(cs: Components, id: FiberId)
    requires id in cs
  {
    forall n | n in cs :: cs[id].Keys() * cs[n].provide == {}
  }

  lemma AvoidsSink(e: Links, f: Links, id: nat, a: nat, b: nat)
    requires forall x, y | (x, y) in e && x != id && y != id :: (x, y) in f
    requires forall y :: (id, y) !in e
    requires b != id && Reach(e, a, b)
    ensures Reach(f, a, b)
  {
    var path :| Via(e, path, a, b);
    forall i | 0 < i < |path| ensures (path[i - 1], path[i]) in f {
      assert (path[i - 1], path[i]) in e;
      assert i < |path| - 1 ==> (path[i], path[i + 1]) in e;
    }
    assert Via(f, path, a, b);
  }

  lemma ReachMore(e: Links, f: Links, a: nat, b: nat)
    requires e <= f && Reach(e, a, b)
    ensures Reach(f, a, b)
  {
    var path :| Via(e, path, a, b);
    assert Via(f, path, a, b);
  }

  lemma NothingFromSink(e: Links, id: nat, b: nat)
    requires (forall y :: (id, y) !in e) && Reach(e, id, b)
    ensures b == id
  {
    ClosedReach(e, {id}, id, b);
  }

  /** Skipping the scan loses no cycle: mounting a fiber none of whose keys has a provider leaves the
      dependency cycles exactly as they were. */
  lemma GateLosesNothing(cs: Components, id: FiberId, c: Component, s: set<FiberId>)
    requires id !in cs && Unprovided(cs[id := c], id)
    ensures IsCycle(cs[id := c], s) <==> IsCycle(cs, s)
  {
    hide Reach, IsComponent, Needs;
    var cs2 := cs[id := c];
    var e, f := Needs(cs2), Needs(cs);
    GateLinks(cs, id, c);
    forall a, b | a != id && b != id ensures Mutual(e, a, b) <==> Mutual(f, a, b) {
      if Mutual(e, a, b) {
        AvoidsSink(e, f, id, a, b);
        AvoidsSink(e, f, id, b, a);
      }
      if Mutual(f, a, b) {
        ReachMore(f, e, a, b);
        ReachMore(f, e, b, a);
      }
    }
    forall b | Mutual(e, id, b) ensures b == id {
      NothingFromSink(e, id, b);
    }
    GateComponents(e, f, cs.Keys, id, s);
    assert cs2.Keys == cs.Keys + {id};
  }

  lemma GateLinks(cs: Components, id: FiberId, c: Component)
    requires id !in cs && Unprovided(cs[id := c], id)
    ensures Needs(cs) <= Needs(cs[id := c])
    ensures forall y :: (id, y) !in Needs(cs[id := c])
    ensures forall x, y | (x, y) in Needs(cs[id := c]) && x != id && y != id :: (x, y) in Needs(cs)
  {
    var cs2 := cs[id := c];
    forall y | y in cs2 ensures (id, y) !in Needs(cs2) {
      assert cs2[id].Keys() * cs2[y].provide == {};
    }
  }

  lemma GateComponents(e: Links, f: Links, nodes: set<nat>, id: nat, s: set<nat>)
    requires id !in nodes
    requires forall a, b | a != id && b != id :: Mutual(e, a, b) <==> Mutual(f, a, b)
    requires forall b | Mutual(e, id, b) :: b == id
    ensures |s| > 1 ==> (IsComponent(e, nodes + {id}, s) <==> IsComponent(f, nodes, s))
  {
    hide Mutual;
    if |s| > 1 {
      Another(s, id);
      var b :| b in s && b != id;
      if IsComponent(e, nodes + {id}, s) {
        assert id in s ==> Mutual(e, id, b);
        forall x, y | x in s && y in nodes ensures y in s <==> Mutual(f, x, y) {}
      }
      if IsComponent(f, nodes, s) {
        forall x | x in s ensures !Mutual(e, x, id) {
          MutualFlip(e, x, id);
        }
        forall x, y | x in s && y in nodes + {id} ensures y in s <==> Mutual(e, x, y) {}
      }
    }
  }

  lemma MutualFlip(e: Links, a: nat, b: nat)
    ensures Mutual(e, a, b) <==> Mutual(e, b, a)
  {}

  lemma Another(s: set<nat>, id: nat)
    requires |s| > 1
    ensures exists b :: b in s && b != id
  {
    if forall b | b in s :: b == id {
      assert s <= {id};
      Larger(s, {id});
    }
  }

  lemma {:induction false} Larger(s: set<nat>, t: set<nat>)
    requires s <= t
    ensures |s| <= |t|
  {
    if s != {} {
      var x :| x in s;
      Larger(s - {x}, t - {x});
    }
  }

  /** Removing a fiber can leave a smaller cycle, but only inside one that was there before. */
  lemma EraseShrinksCycles(cs: Components, id: FiberId, s: set<FiberId>)
    requires IsCycle(cs - {id}, s)
    ensures exists c :: IsCycle(cs, c) && s <= c
  {
    hide Reach;
    var e, f := Needs(cs), Needs(cs - {id});
    FewerNeeds(cs, id);
    var a :| a in s;
    var c := set b | b in cs && Mutual(e, a, b);
    forall x, y | x in c && y in cs.Keys ensures y in c <==> Mutual(e, x, y) {
      MutualChain(e, a, x, y);
    }
    ReachSelf(e, a);
    forall b | b in s ensures b in c {
      assert Mutual(f, a, b);
      ReachMore(f, e, a, b);
      ReachMore(f, e, b, a);
    }
    Larger(s, c);
    assert IsCycle(cs, c);
  }

  lemma FewerNeeds(cs: Components, id: FiberId)
    ensures Needs(cs - {id}) <= Needs(cs)
  {}

  lemma MutualChain(e: Links, a: nat, x: nat, y: nat)
    requires Mutual(e, a, x)
    ensures Mutual(e, a, y) <==> Mutual(e, x, y)
  {
    hide Reach;
    if Mutual(e, a, y) {
      ReachTrans(e, x, a, y);
      ReachTrans(e, y, a, x);
    }
    if Mutual(e, x, y) {
      ReachTrans(e, a, x, y);
      ReachTrans(e, y, x, a);
    }
  }

  /** `s` is a cycle without `id`, inside a cycle that `id` is in. */
  ghost predicate Splits(cs: Components, id: FiberId, s: set<FiberId>) {
    IsCycle(cs - {id}, s) && exists c :: IsCycle(cs, c) && id in c && s <= c - {id}
  }

  /** What a removal leaves is new exactly inside the removed fiber's own cycle. */
  lemma NewInside(cs: Components, id: FiberId, s: set<FiberId>)
    requires IsCycle(cs - {id}, s)
    ensures !IsCycle(cs, s) <==> Splits(cs, id, s)
  {
    hide Mutual, Needs;
    assert (cs - {id}).Keys == cs.Keys - {id};
    if c :| IsCycle(cs, c) && id in c && s <= c - {id} {
      var a :| a in s;
      if IsCycle(cs, s) {
        ComponentsMeet(Needs(cs), cs.Keys, c, s, a);
      }
    }
    if !IsCycle(cs, s) {
      EraseShrinksCycles(cs, id, s);
      var c :| IsCycle(cs, c) && s <= c;
      if id !in c {
        CycleKept(cs, id, c);
        var a :| a in s;
        ComponentsMeet(Needs(cs - {id}), (cs - {id}).Keys, c, s, a);
      }
    }
  }

  /** A cycle survives the removal of somebody outside it. */
  lemma CycleKept(cs: Components, id: FiberId, c: set<FiberId>)
    requires IsCycle(cs, c) && id !in c
    ensures IsCycle(cs - {id}, c)
  {
    hide Reach;
    var e, f := Needs(cs), Needs(cs - {id});
    FewerNeeds(cs, id);
    forall a, b | a in c && b in (cs - {id}).Keys ensures b in c <==> Mutual(f, a, b) {
      if b in c {
        StaysInside(cs, id, c, a, b);
        StaysInside(cs, id, c, b, a);
      }
      if Mutual(f, a, b) {
        ReachMore(f, e, a, b);
        ReachMore(f, e, b, a);
      }
    }
  }

  /** A path between members of a cycle stays in it. */
  lemma StaysInside(cs: Components, id: FiberId, c: set<FiberId>, a: FiberId, b: FiberId)
    requires IsCycle(cs, c) && id !in c && a in c && b in c
    ensures Reach(Needs(cs - {id}), a, b)
  {
    var e, f := Needs(cs), Needs(cs - {id});
    assert Mutual(e, a, b);
    var path :| Via(e, path, a, b);
    forall i | 0 <= i < |path| ensures path[i] in c {
      PathSplit(e, path, i);
      if i > 0 {
        assert (path[i - 1], path[i]) in e;
      }
      assert Mutual(e, a, path[i]) by {
        ReachTrans(e, path[i], b, a);
      }
    }
    forall i | 0 < i < |path| ensures (path[i - 1], path[i]) in f {
      assert (path[i - 1], path[i]) in e && path[i - 1] in c && path[i] in c;
    }
    assert Via(f, path, a, b);
  }

  lemma PathSplit(e: Links, path: seq<nat>, i: nat)
    requires Path(e, path) && i < |path|
    ensures Reach(e, path[0], path[i]) && Reach(e, path[i], path[|path| - 1])
  {
    assert Via(e, path[..i + 1], path[0], path[i]);
    assert Via(e, path[i..], path[i], path[|path| - 1]);
  }

  /** Removing a fiber leaves no new cycle exactly when nothing inside a cycle it is in is still a cycle
      without it. */
  lemma RemovalIsQuiet(cs: Components, id: FiberId)
    ensures (forall s | IsCycle(cs - {id}, s) :: IsCycle(cs, s)) <==>
            (forall c, s | IsCycle(cs, c) && id in c && IsCycle(cs - {id}, s) :: !(s <= c - {id}))
  {
    hide IsCycle;
    forall s | IsCycle(cs - {id}, s)
      ensures !IsCycle(cs, s) <==> exists c :: IsCycle(cs, c) && id in c && s <= c - {id}
    {
      NewInside(cs, id, s);
    }
  }
}
