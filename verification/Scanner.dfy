/** The diagnose pass as the engine runs it, over its reused tables (src/runtime.cpp:815-951). */
module Scanner {
  import opened Basics
  import opened Fibers
  import opened Graphs
  import opened Tarjan
  import opened Diagnostics
  import opened Conflicts

  lemma GrayReach(e: set<(nat, nat)>, gray: set<nat>, p: nat, q: nat)
    requires (p, q) in e && forall g | g in gray :: Reach(e, g, p)
    ensures forall g | g in gray + {p} :: Reach(e, g, q)
  {
    hide Reach;
    ReachLink(e, p, q);
    forall g | g in gray + {p} ensures Reach(e, g, q) {
      if g != p {
        ReachTrans(e, g, p, q);
      }
    }
  }

  class Diagnosis {
    var components: Components
    var providersOf: map<ServiceId, set<FiberId>>
    var slots: seq<Provision>
    var order: seq<FiberId>
    var adj: seq<seq<FiberId>>
    var index: seq<int>
    var low: seq<int>
    var onStack: seq<bool>
    var stack: seq<nat>
    var next: nat
    var scc: seq<FiberId>
    var reported: set<Diagnostic>
    var sink: seq<Diagnostic>
    ghost var done: set<nat>
    ghost var comps: seq<set<nat>>

    ghost function Now(): Walk
      reads this
    {
      Walk(index, low, stack, onStack, next, done, comps)
    }

    ghost function Box(): Outbox
      reads this
    {
      Outbox(reported, sink)
    }

    ghost function Table(): Links
      reads this`order, this`adj
    {
      Spelled(order, adj)
    }

    /** The provider index mirrors the declarations. */
    ghost predicate Mirrored()
      reads this`components, this`providersOf
    {
      forall k, id :: (k in providersOf && id in providersOf[k]) <==> (id in components && k in components[id].provide)
    }

    /** Between runs: every dependency cycle lies inside one that was reported. */
    ghost predicate Valid()
      reads this
    {
      Mirrored() && (forall k | k in providersOf :: providersOf[k] != {}) && Delivered(Box()) && Covered(components, reported)
    }

    constructor ()
      ensures Valid() && components == map[] && sink == [] && reported == {}
    {
      components, providersOf, reported, sink := map[], map[], {}, [];
      slots, order, adj, index, low, onStack, stack, next, scc := [], [], [], [], [], [], [], 0, [];
      done, comps := {}, [];
      new;
      NothingToCover();
    }

    method Emit(d: Diagnostic)
      modifies this`reported, this`sink
      ensures Box() == Announce(old(Box()), d)
    {
      if d !in reported {
        reported := reported + {d};
        sink := sink + [d];
      }
    }

    // -------------------------------------------------------------------------------------------
    // Conflicts

    /** Every provision once. */
    method GatherSlots()
      modifies this`slots
      ensures Listed(components, slots)
    {
      slots := [];
      var todo := components.Keys;
      while todo != {}
        invariant todo <= components.Keys
        invariant forall p :: multiset(slots)[p] == if Provides(components, p) && p.provider !in todo then 1 else 0
      {
        var id :| id in todo;
        var keys := components[id].provide;
        while keys != {}
          invariant keys <= components[id].provide
          invariant forall p ::
            multiset(slots)[p] == if Provides(components, p) && (p.provider !in todo || (p.provider == id && p.key !in keys)) then 1 else 0
        {
          var k :| k in keys;
          slots := slots + [Provision(k, id)];
          keys := keys - {k};
        }
        todo := todo - {id};
      }
    }

    /** Sorts by key, in place of std::sort. */
    method SortSlots()
      modifies this`slots
      ensures Sorted(slots) && multiset(slots) == multiset(old(slots))
    {
      var sorted: seq<Provision> := [];
      for i := 0 to |slots|
        invariant slots == old(slots)
        invariant Sorted(sorted) && multiset(sorted) == multiset(slots[..i])
      {
        InsertSorted(sorted, slots[i]);
        sorted := Insert(sorted, slots[i]);
        assert slots[..i + 1] == slots[..i] + [slots[i]];
      }
      assert slots[..|slots|] == slots;
      slots := sorted;
    }

    /** Groups the sorted list by key and reports every key with more than one provider. */
    method ReportConflicts()
      requires Delivered(Box())
      modifies this`slots, this`reported, this`sink
      ensures Delivered(Box()) && old(sink) <= sink
      ensures forall d :: d in reported <==> d in old(reported) || IsConflictReport(components, d)
    {
      hide Delivered, Listed, Sorted, IsConflictReport, Run, Providers;
      GatherSlots();
      ghost var unsorted := slots;
      SortSlots();
      ListedSame(components, unsorted, slots);
      var i := 0;
      while i < |slots|
        invariant 0 <= i <= |slots| && Listed(components, slots) && Sorted(slots)
        invariant i == 0 || i == |slots| || slots[i - 1].key != slots[i].key
        invariant Delivered(Box()) && old(sink) <= sink
        invariant forall d :: d in reported <==> d in old(reported) || (IsConflictReport(components, d) && KeyBefore(slots, i, d.key))
      {
        var j := RunEnd(i);
        RunIsProviders(components, slots, i, j);
        ghost var was := reported;
        if j - i >= 2 {
          var ids := set q | i <= q < j :: slots[q].provider;
          AnnounceDelivers(Box(), Diagnostic(Conflict, slots[i].key, ids));
          Emit(Diagnostic(Conflict, slots[i].key, ids));
        }
        ReportedMore(components, slots, i, j, was, reported);
        RunEnds(slots, i, j);
        i := j;
      }
      AllReported(components, slots);
    }

    method RunEnd(i: nat) returns (j: nat)
      requires i < |slots| && (i == 0 || slots[i - 1].key != slots[i].key)
      ensures Run(slots, i, j)
    {
      j := i + 1;
      while j < |slots| && !KeyLess(slots[i].key, slots[j].key) && !KeyLess(slots[j].key, slots[i].key)
        invariant i < j <= |slots| && forall q | i <= q < j :: slots[q].key == slots[i].key
      {
        KeysCompare(slots[i].key, slots[j].key);
        j := j + 1;
      }
      if j < |slots| {
        KeysCompare(slots[i].key, slots[j].key);
      }
    }

    /** lower_bound over the ascending identifiers. */
    method Position(id: FiberId) returns (p: nat)
      requires Ascending(order) && id in order
      ensures p < |order| && order[p] == id
    {
      var lo, hi := 0, |order|;
      ghost var at: nat :| at < |order| && order[at] == id;
      while lo < hi
        invariant lo <= at <= hi <= |order| && (hi == |order| || id <= order[hi])
        invariant lo < |order|
      {
        var mid := (lo + hi) / 2;
        if order[mid] < id {
          lo := mid + 1;
        } else {
          hi := mid;
        }
      }
      p := lo;
    }

    /** The identifiers of a set in ascending order. */
    static method Enumerate(ids: set<FiberId>) returns (s: seq<FiberId>)
      ensures Ascending(s) && forall x :: x in s <==> x in ids
    {
      s := [];
      var todo := ids;
      while todo != {}
        invariant todo <= ids && Ascending(s)
        invariant forall x :: x in s <==> x in ids && x !in todo
        invariant forall i, y | 0 <= i < |s| && y in todo :: s[i] < y
      {
        HasLeast(todo);
        var x :| IsLeast(todo, x);
        s := s + [x];
        todo := todo - {x};
      }
    }

    method BuildTables()
      requires Mirrored()
      modifies this`order, this`adj
      ensures Tabled(components, order, adj)
    {
      var ids := Enumerate(components.Keys);
      order := ids;
      adj := [];
      for i := 0 to |order|
        invariant |adj| == i && order == ids
        invariant forall p, n | 0 <= p < i :: n in adj[p] <==> n in components && components[order[p]].Keys() * components[n].provide != {}
      {
        assert order[i] in ids;
        var inject := components[order[i]].inject;
        var targets := {};
        for j := 0 to |inject|
          invariant forall n :: n in targets <==> exists h :: 0 <= h < j && n in components && inject[h].key in components[n].provide
        {
          if inject[j].key in providersOf {
            targets := targets + providersOf[inject[j].key];
          }
        }
        TargetsMeet(components, components[order[i]], targets);
        var row := Enumerate(targets);
        adj := adj + [row];
      }
    }

    /** strongconnect: walks everything unvisited below `p`. */
    method Connect(p: nat, ghost gray: set<nat>, ghost box: Outbox)
      requires Tabled(components, order, adj) && |index| == |order|
      requires Walking(Table(), Now(), gray)
      requires p < |index| && index[p] == -1 && forall g | g in gray :: Reach(Table(), g, p)
      requires Box() == Announced(box, order, comps)
      modifies this`index, this`low, this`onStack, this`stack, this`next, this`scc, this`reported, this`sink, this`done, this`comps
      ensures Called(Table(), old(Now()), Now(), gray, p)
      ensures Box() == Announced(box, order, comps)
      decreases Unvisited(index), 0
    {
      hide Walking, Scanning, Called, Tabled, Reach, Spelled, Announced, Needs;
      ghost var w0, e := Now(), Table();
      WalkSizes(e, w0, gray);
      ScanStart(e, w0, gray, p);
      UnvisitedShrinks(index, index[p := next], p);
      index := index[p := next];
      low := low[p := next];
      next := next + 1;
      stack := stack + [p];
      onStack := onStack[p := true];
      TableSizes(components, order, adj);
      ghost var seen := {};
      for i := 0 to |adj[p]|
        invariant Scanning(e, w0, Now(), gray, p, seen)
        invariant forall q: nat :: q in seen <==> q < |order| && order[q] in adj[p][..i]
        invariant Box() == Announced(box, order, comps)
        invariant e == Table() && |order| == |adj| && p < |order|
      {
        TableRow(components, order, adj, p, i);
        var wp := Position(adj[p][i]);
        TableSeen(components, order, adj, p, i, wp);
        ScanSizes(e, w0, Now(), gray, p, seen);
        TableLink(components, order, adj, p, i, wp);
        Follow(p, wp, gray, box, w0, seen);
        seen := seen + {wp};
      }
      assert adj[p][..|adj[p]|] == adj[p];
      TableSuccessors(components, order, adj, p, seen);
      ghost var w := Now();
      ScanSizes(e, w0, w, gray, p, seen);
      if low[p] != index[p] {
        ReturnStep(e, w0, w, gray, p, seen);
        return;
      }
      PopComponent(p, |w0.stack|);
      TableWithin(components, order, adj);
      PopStep(e, w0, w, Now(), gray, p, seen);
      AnnouncedSnoc(box, order, w.comps, comps);
    }

    /** One edge of strongconnect: a target not seen before is walked, and one still on the stack may lower
        the mark of `p`. */
    method Follow(p: nat, wp: nat, ghost gray: set<nat>, ghost box: Outbox, ghost w0: Walk, ghost seen: set<nat>)
      requires Tabled(components, order, adj) && |index| == |order| && (p, wp) in Table() && wp < |order|
      requires Scanning(Table(), w0, Now(), gray, p, seen) && forall g | g in gray :: Reach(Table(), g, p)
      requires Box() == Announced(box, order, comps)
      modifies this`index, this`low, this`onStack, this`stack, this`next, this`scc, this`reported, this`sink, this`done, this`comps
      ensures Scanning(Table(), w0, Now(), gray, p, seen + {wp})
      ensures Box() == Announced(box, order, comps)
      decreases Unvisited(index), 1
    {
      hide Walking, Scanning, Called, Tabled, Reach, Spelled, Announced, Needs;
      ghost var v, e := Now(), Table();
      ScanSizes(e, w0, v, gray, p, seen);
      if index[wp] == -1 {
        GrayReach(e, gray, p, wp);
        Connect(wp, gray + {p}, box);
        ScanCall(e, w0, v, Now(), gray, p, seen, wp);
        CallLengths(e, w0, v, Now(), gray, p, seen, wp);
        if low[wp] < low[p] {
          low := low[p := low[wp]];
        }
      } else {
        ScanVisited(e, w0, v, gray, p, seen, wp);
        if onStack[wp] {
          low := low[p := if index[wp] < low[p] then index[wp] else low[p]];
        }
      }
    }

    /** Pops the stack down to `p`, and reports what came off when it is more than one fiber. */
    method PopComponent(p: nat, ghost k: nat)
      requires Numbered(Now()) && k < |stack| && stack[k] == p && |order| == |index| && Ascending(order)
      modifies this`onStack, this`stack, this`scc, this`reported, this`sink, this`done, this`comps
      ensures PoppedTo(old(Now()), Now(), k)
      ensures Box() == if |Top(old(Now()), k)| > 1 then Announce(old(Box()), CycleReport(Ids(order, Top(old(Now()), k)))) else old(Box())
    {
      hide Top, Numbered, Ascending, Ids;
      ghost var w := Now();
      PopStack(p, k);
      TopSize(w, k);
      SccIds(order, w, k, scc);
      assert Box() == old(Box());
      done, comps := done + Top(w, k), comps + [Top(w, k)];
      if |scc| > 1 {
        var members := set x | x in scc;
        assert members == Ids(order, Top(w, k));
        Emit(Diagnostic(Cycle, ServiceId("", 0), members));
      }
    }

    method PopStack(p: nat, ghost k: nat)
      requires Numbered(Now()) && k < |stack| && stack[k] == p && |order| == |index|
      modifies this`onStack, this`stack, this`scc
      ensures stack == old(stack)[..k] && |onStack| == |old(onStack)|
      ensures forall q: nat | q < |onStack| :: onStack[q] <==> old(onStack)[q] && q !in Top(old(Now()), k)
      ensures |scc| == |old(stack)| - k
      ensures forall i | 0 <= i < |scc| :: old(stack)[|old(stack)| - 1 - i] < |order| && scc[i] == order[old(stack)[|old(stack)| - 1 - i]]
    {
      hide Top, Numbered;
      ghost var w := Now();
      StackInside(w);
      scc := [];
      TopNone(w);
      while true
        invariant k < |stack| <= |w.stack| && stack == w.stack[..|stack|] && |onStack| == |w.onStack|
        invariant forall q: nat | q < |onStack| :: onStack[q] <==> w.onStack[q] && q !in Top(w, |stack|)
        invariant |scc| == |w.stack| - |stack|
        invariant forall i | 0 <= i < |scc| :: scc[i] == order[w.stack[|w.stack| - 1 - i]]
        decreases |stack|
      {
        var q := stack[|stack| - 1];
        assert q == w.stack[|stack| - 1];
        TopGrows(w, |stack| - 1);
        StackOnce(w, k, |stack| - 1);
        stack := stack[..|stack| - 1];
        onStack := onStack[q := false];
        scc := scc + [order[q]];
        if q == p {
          break;
        }
      }
    }

    /** The scan over all positions. */
    method ScanCycles()
      requires Mirrored() && Delivered(Box())
      modifies this
      ensures components == old(components) && providersOf == old(providersOf)
      ensures Delivered(Box()) && old(sink) <= sink
      ensures forall d :: d in reported <==> d in old(reported) || exists c :: IsCycle(components, c) && d == CycleReport(c)
    {
      hide Walking, Called, Tabled, Spelled, Announced, Delivered, IsCycle, Needs;
      BuildTables();
      TableSizes(components, order, adj);
      index := seq(|order|, _ => -1);
      onStack, low, stack, next := seq(|order|, _ => false), seq(|order|, _ => 0), [], 0;
      done, comps := {}, [];
      ghost var e, box := Table(), Box();
      WalkStart(e, Now());
      AnnouncedNone(box, order);
      ghost var ids := order;
      for i := 0 to |order|
        invariant Walking(e, Now(), {}) && e == Table() && order == ids && |index| == |ids| && Tabled(components, order, adj)
        invariant forall p | 0 <= p < i :: index[p] >= 0
        invariant Box() == Announced(box, order, comps)
        invariant components == old(components) && providersOf == old(providersOf)
      {
        WalkSizes(e, Now(), {});
        if index[i] == -1 {
          ghost var w := Now();
          Connect(i, {}, box);
          AfterCall(e, w, Now(), i);
        }
      }
      forall d ensures d in reported <==> d in old(reported) || exists c :: IsCycle(components, c) && d == CycleReport(c) {
        ScanReports(components, order, adj, Now(), box, d);
      }
      AnnouncedDelivers(box, order, comps);
    }

    /** A component declaring a key it provides itself, for one such key. */
    method SelfProvisions()
      requires Delivered(Box())
      modifies this`reported, this`sink
      ensures Delivered(Box()) && old(sink) <= sink && old(reported) <= reported
      ensures forall d | d in reported :: d in old(reported) || IsSelfReport(components, d)
      ensures forall d, e | d in reported - old(reported) && e in reported - old(reported) && d.fibers == e.fibers :: d == e
      ensures forall id | id in components && components[id].Keys() * components[id].provide != {} ::
        exists k :: k in components[id].Keys() * components[id].provide && SelfReport(id, k) in reported
    {
      hide Delivered, SelvesReported;
      var todo := components.Keys;
      SelvesStart(components, reported);
      while todo != {}
        invariant todo <= components.Keys
        invariant Delivered(Box()) && old(sink) <= sink
        invariant SelvesReported(components, old(reported), reported, todo)
      {
        var id :| id in todo;
        ghost var now := reported;
        SelfProvision(id);
        SelvesStep(components, old(reported), now, reported, todo, id);
        todo := todo - {id};
      }
      SelvesDone(components, old(reported), reported);
    }

    method SelfProvision(id: FiberId)
      requires Delivered(Box()) && id in components
      modifies this`reported, this`sink
      ensures Delivered(Box()) && old(sink) <= sink
      ensures if components[id].Keys() * components[id].provide == {} then reported == old(reported)
              else exists k :: k in components[id].Keys() * components[id].provide && reported == old(reported) + {SelfReport(id, k)}
    {
      hide Delivered;
      var both := components[id].Keys() * components[id].provide;
      if both != {} {
        var k :| k in both;
        AnnounceDelivers(Box(), SelfReport(id, k));
        Emit(SelfReport(id, k));
      }
    }

    method Diagnose(scanCycles: bool)
      requires Mirrored() && Delivered(Box())
      modifies this
      ensures components == old(components) && providersOf == old(providersOf)
      ensures Delivered(Box()) && old(sink) <= sink && old(reported) <= reported
      ensures forall d | d in reported && d !in old(reported) ::
        IsConflictReport(components, d) || IsCycleReport(components, d) || IsSelfReport(components, d)
      ensures forall d | IsConflictReport(components, d) :: d in reported
      ensures scanCycles ==> forall c | IsCycle(components, c) :: CycleReport(c) in reported
      ensures forall id | id in components && components[id].Keys() * components[id].provide != {} ::
        exists k :: k in components[id].Keys() * components[id].provide && SelfReport(id, k) in reported
    {
      hide Delivered, IsCycle, IsSelfReport, IsConflictReport, Needs;
      ReportConflicts();
      if scanCycles {
        ScanCycles();
      }
      SelfProvisions();
    }

    /** Installs a fiber and diagnoses; the scan runs only when a declared key has a provider. */
    method Mount(id: FiberId, c: Component)
      requires Valid() && id !in components
      modifies this
      ensures Valid() && components == old(components)[id := c] && old(sink) <= sink
      ensures forall s | IsCycle(components, s) && !IsCycle(old(components), s) :: CycleReport(s) in reported
      ensures forall d | d in reported && d !in old(reported) ::
        IsConflictReport(components, d) || IsCycleReport(components, d) || IsSelfReport(components, d)
      ensures forall d | IsConflictReport(components, d) :: d in reported
      ensures c.Keys() * c.provide != {} ==> exists k :: k in c.Keys() * c.provide && SelfReport(id, k) in reported
    {
      hide IsCycle, IsSelfReport, IsConflictReport, Needs, Delivered, Mirrored, Unprovided;
      ghost var cs := components;
      Enroll(id, c);
      var cyclesPossible := AnyProvided(c.inject);
      if !cyclesPossible {
        NobodyProvides(components, providersOf, id);
        forall s ensures IsCycle(components, s) <==> IsCycle(cs, s) {
          GateLosesNothing(cs, id, c, s);
        }
      }
      Diagnose(cyclesPossible);
      assert components[id] == c;
    }

    method Enroll(id: FiberId, c: Component)
      requires Mirrored() && id !in components && forall k | k in providersOf :: providersOf[k] != {}
      modifies this`components, this`providersOf
      ensures Mirrored() && components == old(components)[id := c] && forall k | k in providersOf :: providersOf[k] != {}
    {
      providersOf := map k | k in providersOf.Keys + c.provide ::
        (if k in providersOf then providersOf[k] else {}) + (if k in c.provide then {id} else {});
      components := components[id := c];
    }

    /** The gate: whether a declared key has a provider. */
    method AnyProvided(inject: seq<Dependency>) returns (any: bool)
      ensures any <==> exists j :: 0 <= j < |inject| && inject[j].key in providersOf
    {
      for i := 0 to |inject|
        invariant forall j | 0 <= j < i :: inject[j].key !in providersOf
      {
        if inject[i].key in providersOf {
          return true;
        }
      }
      return false;
    }

    /** Drops a fiber's entries; no diagnosis follows. */
    method Unindex(id: FiberId)
      requires Valid()
      modifies this`components, this`providersOf
      ensures Valid() && components == old(components) - {id} && Box() == old(Box())
      ensures forall s | IsCycle(components, s) && !IsCycle(old(components), s) :: Splits(old(components), id, s)
    {
      hide IsCycle, Delivered, Needs;
      forall s | IsCycle(components - {id}, s) && !IsCycle(components, s) ensures Splits(components, id, s) {
        NewInside(components, id, s);
      }
      forall s | IsCycle(components - {id}, s) ensures exists c :: IsCycle(components, c) && s <= c {
        EraseShrinksCycles(components, id, s);
      }
      providersOf := map k | k in providersOf && providersOf[k] - {id} != {} :: providersOf[k] - {id};
      components := components - {id};
    }
  }

  ghost predicate Covered(cs: Components, reported: set<Diagnostic>) {
    forall s | IsCycle(cs, s) :: exists c :: s <= c && CycleReport(c) in reported
  }

  function Unvisited(index: seq<int>): set<nat> {
    set p | p in Range(|index|) && index[p] < 0
  }

  lemma NothingToCover()
    ensures Covered(map[], {})
  {}

  lemma TargetsMeet(cs: Components, c: Component, targets: set<FiberId>)
    requires forall n :: n in targets <==> exists h :: 0 <= h < |c.inject| && n in cs && c.inject[h].key in cs[n].provide
    ensures forall n :: n in targets <==> n in cs && c.Keys() * cs[n].provide != {}
  {
    forall n | n in cs ensures n in targets <==> c.Keys() * cs[n].provide != {} {
      if n in targets {
        var h :| 0 <= h < |c.inject| && c.inject[h].key in cs[n].provide;
        assert c.inject[h].key in c.Keys() * cs[n].provide;
      }
      if c.Keys() * cs[n].provide != {} {
        var k :| k in c.Keys() * cs[n].provide;
        var h :| 0 <= h < |c.inject| && c.inject[h].key == k;
      }
    }
  }

  lemma UnvisitedShrinks(index: seq<int>, more: seq<int>, p: nat)
    requires p < |index| && index[p] < 0 && |more| == |index| && more[p] >= 0
    requires forall q | 0 <= q < |index| && index[q] >= 0 :: more[q] >= 0
    ensures Unvisited(more) < Unvisited(index)
  {
    assert p in Unvisited(index) && p !in Unvisited(more);
  }

  lemma WalkSizes(e: Links, w: Walk, gray: set<nat>)
    requires Walking(e, w, gray)
    ensures |w.low| == |w.index| == |w.onStack|
    ensures forall p | 0 <= p < |w.index| :: w.index[p] >= -1
  {}

  lemma ScanSizes(e: Links, w0: Walk, w: Walk, gray: set<nat>, p: nat, seen: set<nat>)
    requires Scanning(e, w0, w, gray, p, seen)
    ensures Walking(e, w, gray + {p}) && Numbered(w)
    ensures |w.low| == |w.index| == |w.onStack| == |w0.index| && p < |w.index| && |w0.stack| < |w.stack| && w.stack[|w0.stack|] == p
    ensures forall q: nat | q < |w0.index| && w0.index[q] >= 0 :: w.index[q] >= 0
    ensures w0.index[p] < 0 <= w.index[p]
    ensures forall q: nat | q < |w.index| :: w.index[q] >= -1
  {
    hide Colored, Explored, Upward, Anchored, Grouped, Witness, Floor;
    assert w.index[w.stack[|w0.stack|]] >= 0;
  }

  lemma CallLengths(e: Links, w0: Walk, v: Walk, w: Walk, gray: set<nat>, p: nat, seen: set<nat>, q: nat)
    requires Scanning(e, w0, v, gray, p, seen) && Called(e, v, w, gray + {p}, q)
    ensures |w.low| == |w.index| == |v.index| && p < |w.index| && q < |w.index|
  {
    hide Walking, Witness, Floor, SeenDone;
    WalkLengths(e, w, gray + {p});
  }

  lemma TableSizes(cs: Components, order: seq<FiberId>, adj: seq<seq<FiberId>>)
    requires Tabled(cs, order, adj)
    ensures |adj| == |order| && Ascending(order)
  {}

  lemma TableRow(cs: Components, order: seq<FiberId>, adj: seq<seq<FiberId>>, p: nat, i: nat)
    requires Tabled(cs, order, adj) && p < |adj| && i < |adj[p]|
    ensures adj[p][i] in order && Ascending(order)
  {}

  lemma TableLink(cs: Components, order: seq<FiberId>, adj: seq<seq<FiberId>>, p: nat, i: nat, q: nat)
    requires Tabled(cs, order, adj) && p < |adj| && i < |adj[p]| && q < |order| && order[q] == adj[p][i]
    ensures (p, q) in Spelled(order, adj)
  {}

  lemma TableSeen(cs: Components, order: seq<FiberId>, adj: seq<seq<FiberId>>, p: nat, i: nat, q: nat)
    requires Tabled(cs, order, adj) && p < |adj| && i < |adj[p]| && q < |order| && order[q] == adj[p][i]
    ensures forall r: nat :: r < |order| && order[r] in adj[p][..i + 1] <==> (r < |order| && order[r] in adj[p][..i]) || r == q
  {
    assert adj[p][..i + 1] == adj[p][..i] + [adj[p][i]];
  }

  lemma TableSuccessors(cs: Components, order: seq<FiberId>, adj: seq<seq<FiberId>>, p: nat, seen: set<nat>)
    requires Tabled(cs, order, adj) && p < |order|
    requires forall q: nat :: q in seen <==> q < |order| && order[q] in adj[p]
    ensures Successors(Spelled(order, adj), p, seen)
  {}

  lemma TableWithin(cs: Components, order: seq<FiberId>, adj: seq<seq<FiberId>>)
    requires Tabled(cs, order, adj)
    ensures Within(Spelled(order, adj), |order|)
  {}

  lemma AnnouncedSnoc(box: Outbox, order: seq<FiberId>, comps: seq<set<nat>>, more: seq<set<nat>>)
    requires |more| == |comps| + 1 && more[..|comps|] == comps
    ensures Announced(box, order, more) ==
      var b := Announced(box, order, comps);
      var c := more[|comps|];
      if |c| > 1 then Announce(b, CycleReport(Ids(order, c))) else b
  {}

  lemma StackInside(w: Walk)
    requires Numbered(w)
    ensures |w.onStack| == |w.index| && forall i | 0 <= i < |w.stack| :: w.stack[i] < |w.index|
  {}

  lemma StackOnce(w: Walk, i: nat, j: nat)
    requires Numbered(w) && i <= j < |w.stack|
    ensures w.stack[i] == w.stack[j] <==> i == j
  {}

  lemma TopNone(w: Walk)
    ensures Top(w, |w.stack|) == {}
  {}

  lemma TopGrows(w: Walk, k: nat)
    requires k < |w.stack|
    ensures Top(w, k) == Top(w, k + 1) + {w.stack[k]}
  {}

  lemma {:induction false} TopSize(w: Walk, k: nat)
    requires Numbered(w) && k <= |w.stack|
    ensures |Top(w, k)| == |w.stack| - k
    decreases |w.stack| - k
  {
    if k < |w.stack| {
      TopSize(w, k + 1);
      TopGrows(w, k);
      assert w.stack[k] !in Top(w, k + 1);
    }
  }

  lemma SccIds(order: seq<FiberId>, w: Walk, k: nat, scc: seq<FiberId>)
    requires Numbered(w) && |order| == |w.index| && k <= |w.stack| && |scc| == |w.stack| - k
    requires forall i | 0 <= i < |scc| :: scc[i] == order[w.stack[|w.stack| - 1 - i]]
    ensures (set x | x in scc) == Ids(order, Top(w, k))
  {
    forall x | x in Ids(order, Top(w, k)) ensures x in scc {
      var j :| k <= j < |w.stack| && order[w.stack[j]] == x;
      assert scc[|w.stack| - 1 - j] == x;
    }
    forall x | x in scc ensures x in Ids(order, Top(w, k)) {
      var i :| 0 <= i < |scc| && scc[i] == x;
      assert w.stack[|w.stack| - 1 - i] in Top(w, k);
    }
  }

  lemma WalkStart(e: Links, w: Walk)
    requires w.stack == [] && w.done == {} && w.comps == [] && w.next == 0
    requires |w.low| == |w.index| == |w.onStack|
    requires forall p | 0 <= p < |w.index| :: w.index[p] == -1 && !w.onStack[p]
    ensures Walking(e, w, {})
  {}

  lemma AnnouncedNone(box: Outbox, order: seq<FiberId>)
    ensures Announced(box, order, []) == box
  {}

  lemma AfterCall(e: Links, v: Walk, w: Walk, p: nat)
    requires Called(e, v, w, {}, p)
    ensures Walking(e, w, {}) && |w.index| == |v.index| && p < |w.index| && w.index[p] >= 0
    ensures forall q | 0 <= q < |v.index| && v.index[q] >= 0 :: w.index[q] >= 0
  {}

  function SelfReport(id: FiberId, k: ServiceId): Diagnostic {
    Diagnostic(Cycle, k, {id})
  }

  ghost predicate IsSelfReport(cs: Components, d: Diagnostic) {
    exists id, k :: id in cs && k in cs[id].Keys() * cs[id].provide && d == SelfReport(id, k)
  }

  /** What has been reported by the time the fibers in `todo` have not been looked at. */
  ghost predicate SelvesReported(cs: Components, was: set<Diagnostic>, now: set<Diagnostic>, todo: set<FiberId>) {
    && was <= now
    && (forall d | d in now :: d in was || IsSelfReport(cs, d))
    && (forall d | d in now - was :: d.fibers !! todo)
    && (forall d, e | d in now - was && e in now - was && d.fibers == e.fibers :: d == e)
    && (forall id | id in cs && id !in todo && cs[id].Keys() * cs[id].provide != {} ::
          exists k :: k in cs[id].Keys() * cs[id].provide && SelfReport(id, k) in now)
  }

  lemma SelvesStart(cs: Components, was: set<Diagnostic>)
    ensures SelvesReported(cs, was, was, cs.Keys)
  {}

  lemma SelvesStep(cs: Components, was: set<Diagnostic>, now: set<Diagnostic>, more: set<Diagnostic>, todo: set<FiberId>, id: FiberId)
    requires SelvesReported(cs, was, now, todo) && id in todo && id in cs
    requires if cs[id].Keys() * cs[id].provide == {} then more == now
             else exists k :: k in cs[id].Keys() * cs[id].provide && more == now + {SelfReport(id, k)}
    ensures SelvesReported(cs, was, more, todo - {id})
  {
    assert forall d | d in more - now :: d.fibers == {id};
  }

  lemma SelvesDone(cs: Components, was: set<Diagnostic>, now: set<Diagnostic>)
    requires SelvesReported(cs, was, now, {})
    ensures was <= now && forall d | d in now :: d in was || IsSelfReport(cs, d)
    ensures forall d, e | d in now - was && e in now - was && d.fibers == e.fibers :: d == e
    ensures forall id | id in cs && cs[id].Keys() * cs[id].provide != {} ::
      exists k :: k in cs[id].Keys() * cs[id].provide && SelfReport(id, k) in now
  {}

  ghost predicate IsCycleReport(cs: Components, d: Diagnostic) {
    exists c :: IsCycle(cs, c) && d == CycleReport(c)
  }

  lemma NobodyProvides(cs: Components, providersOf: map<ServiceId, set<FiberId>>, id: FiberId)
    requires id in cs && forall j | 0 <= j < |cs[id].inject| :: cs[id].inject[j].key !in providersOf
    requires forall k, n :: (k in providersOf && n in providersOf[k]) <==> (n in cs && k in cs[n].provide)
    ensures Unprovided(cs, id)
  {}

  // ---------------------------------------------------------------------------------------------
  // A removal can leave a cycle that nobody reports

  function Wants(k: nat): Dependency {
    Dependency(ServiceId("s", k), true)
  }

  /** Two ends that need the middle, and a middle that needs both. */
  function Row(): Components {
    map[1 := Component([Wants(3)], {ServiceId("s", 1)}),
        2 := Component([Wants(3)], {ServiceId("s", 2)}),
        3 := Component([Wants(1), Wants(2)], {ServiceId("s", 3)})]
  }

  /** The middle is mounted last, so the row is scanned, and reported, only as a whole. Once an end is
      removed, the other end and the middle are a cycle whose report was never delivered. */
  method RemovalLeavesANewCycle() returns (d: Diagnosis)
    ensures fresh(d) && d.Valid() && d.components == Row() - {2}
    ensures IsCycle(d.components, {1, 3}) && CycleReport({1, 3}) !in d.reported
  {
    hide IsCycle, IsConflictReport, IsCycleReport, IsSelfReport, Covered, Delivered, Row;
    RowParts();
    d := new Diagnosis();
    NotYet(map[1 := Row()[1]], {1, 3});
    d.Mount(1, Row()[1]);
    NotYet(map[1 := Row()[1]][2 := Row()[2]], {1, 3});
    d.Mount(2, Row()[2]);
    RowWhole();
    NotYet(Row(), {1, 3});
    d.Mount(3, Row()[3]);
    RowShortened();
    d.Unindex(2);
  }

  lemma RowParts()
    ensures Row().Keys == {1, 2, 3} && Row() == map[1 := Row()[1]][2 := Row()[2]][3 := Row()[3]]
    ensures !IsCycle(map[1 := Row()[1]], {1, 3}) && !IsCycle(map[1 := Row()[1]][2 := Row()[2]], {1, 3})
  {
    assert 3 in {1, 3};
  }

  lemma RowWhole()
    ensures !IsCycle(Row(), {1, 3})
  {
    var r, e := Row(), Needs(Row());
    assert r[3].inject[1].key in r[3].Keys() * r[2].provide;
    assert r[2].inject[0].key in r[2].Keys() * r[3].provide;
    ReachLink(e, 3, 2);
    ReachLink(e, 2, 3);
    assert Mutual(e, 3, 2);
  }

  lemma RowShortened()
    ensures IsCycle(Row() - {2}, {1, 3})
  {
    var r, e := Row() - {2}, Needs(Row() - {2});
    assert r.Keys == {1, 3};
    assert r[1].inject[0].key in r[1].Keys() * r[3].provide;
    assert r[3].inject[0].key in r[3].Keys() * r[1].provide;
    ReachLink(e, 1, 3);
    ReachLink(e, 3, 1);
    ReachSelf(e, 1);
    ReachSelf(e, 3);
  }

  /** A group of several fibers is reported only as a cycle. */
  lemma NotYet(cs: Components, s: set<FiberId>)
    requires !IsCycle(cs, s) && |s| > 1
    ensures !IsConflictReport(cs, CycleReport(s)) && !IsCycleReport(cs, CycleReport(s)) && !IsSelfReport(cs, CycleReport(s))
  {
    hide IsCycle;
  }
}
