/**
  Putting the fibers of the reference machine in an order of dependency when the pool may have cycles:
  under one source per key, those that can come up at all come up in rounds, and the others never do.
 */
module OracleOrder {
  import opened Basics
  import opened Oracle
  import opened OracleSteps
  import opened OracleHandlers
  import opened OracleMeasure

  // ---------------------------------------------------------------------------------------------
  // Who can come up

  ghost predicate Offers(s: Moment, p: FiberId, k: Key) {
    p in s.fibers && Known(s, p) && k in PartOf(s, p).provide
  }

  ghost predicate Offered(s: Moment, up: set<FiberId>, x: FiberId, k: Key) {
    exists p :: p in up && p != x && Offers(s, p, k)
  }

  /** Those that can come up within so many rounds, each needing only fibers of the rounds before. */
  ghost function Rises(s: Moment, n: nat): set<FiberId> {
    if n == 0 then {}
    else set x | x in s.fibers && Known(s, x) && forall k | k in PartOf(s, x).RequiredKeys() :: Offered(s, Rises(s, n - 1), x, k)
  }

  ghost predicate Rising(s: Moment, x: FiberId) {
    exists n :: x in Rises(s, n)
  }

  lemma {:induction false} RisesGrow(s: Moment, m: nat, n: nat)
    requires m <= n
    ensures Rises(s, m) <= Rises(s, n)
    decreases m
  {
    if m > 0 {
      RisesGrow(s, m - 1, n - 1);
      forall x | x in Rises(s, m) ensures x in Rises(s, n) {
        forall k | k in PartOf(s, x).RequiredKeys() ensures Offered(s, Rises(s, n - 1), x, k) {
          assert Offered(s, Rises(s, m - 1), x, k);
        }
      }
    }
  }

  ghost predicate FirstRound(s: Moment, x: FiberId, n: nat) {
    x in Rises(s, n) && forall m: nat | m < n :: x !in Rises(s, m)
  }

  lemma HasRound(s: Moment, x: FiberId)
    requires Rising(s, x)
    ensures exists n :: FirstRound(s, x, n)
  {
    hide Rises;
    var n: nat :| x in Rises(s, n);
    var ns := set i: nat | i <= n && x in Rises(s, i) :: i;
    assert n in ns;
    HasLeast(ns);
    var l :| IsLeast(ns, l);
    forall m: nat | m < l ensures x !in Rises(s, m) {
      assert m !in ns;
    }
    assert FirstRound(s, x, l);
  }

  /** The first round it can come up in. */
  ghost function Round(s: Moment, x: FiberId): (n: nat)
    requires Rising(s, x)
    ensures FirstRound(s, x, n)
  {
    HasRound(s, x);
    var n :| FirstRound(s, x, n);
    n
  }

  /** Something it requires is offered by nobody who can come up. */
  ghost predicate Lacks(s: Moment, x: FiberId)
    requires Known(s, x)
  {
    exists k :: k in PartOf(s, x).RequiredKeys() && forall p | Rising(s, p) && p != x :: !Offers(s, p, k)
  }

  /** With finitely many requirements there is a round before which all suppliers are up. */
  lemma {:induction false} SuppliersUp(s: Moment, x: FiberId, i: nat) returns (n: nat)
    requires Known(s, x) && i <= |PartOf(s, x).inject| && !Lacks(s, x)
    ensures forall j | 0 <= j < i && PartOf(s, x).inject[j].required :: Offered(s, Rises(s, n), x, PartOf(s, x).inject[j].key)
  {
    hide Rises;
    if i == 0 {
      n := 0;
    } else {
      var d := PartOf(s, x).inject[i - 1];
      var m := SuppliersUp(s, x, i - 1);
      n := m;
      if d.required {
        assert d.key in PartOf(s, x).RequiredKeys();
        var p :| Rising(s, p) && p != x && Offers(s, p, d.key);
        var l: nat :| p in Rises(s, l);
        n := m + l;
        RisesGrow(s, l, n);
        assert Offered(s, Rises(s, n), x, d.key);
      }
      RisesGrow(s, m, n);
    }
  }

  lemma RisesOrLacks(s: Moment, x: FiberId)
    requires x in s.fibers && Known(s, x)
    ensures Rising(s, x) || Lacks(s, x)
  {
    if !Lacks(s, x) {
      var n := SuppliersUp(s, x, |PartOf(s, x).inject|);
      forall k | k in PartOf(s, x).RequiredKeys() ensures Offered(s, Rises(s, n), x, k) {}
      assert x in Rises(s, n + 1);
    }
  }

  // ---------------------------------------------------------------------------------------------
  // The order

  /** One source per key, and an optional dependency only where nothing is provided. */
  ghost predicate Clean(s: Moment) {
    && (forall p, q, k | Offers(s, p, k) && Offers(s, q, k) :: p == q)
    && (forall x | x in s.fibers && Known(s, x) && PartOf(s, x).provide != [] :: PartOf(s, x).Keys() == PartOf(s, x).RequiredKeys())
  }

  ghost function Still(s: Moment): set<FiberId> {
    set x | x in s.made && !Rising(s, x)
  }

  ghost function Rounds(s: Moment): map<FiberId, nat> {
    map x | x in s.made && Rising(s, x) :: Round(s, x)
  }

  /** Providers by the round they come up in, everybody else last. */
  ghost function Order(s: Moment): map<FiberId, nat> {
    map x | x in s.made :: if Rising(s, x) && Known(s, x) && PartOf(s, x).provide != [] then Round(s, x) else Top(Rounds(s)) + 1
  }

  ghost function InOrder(s: Moment): Moment {
    Reordered(s, Order(s), Still(s))
  }

  /** A provider comes up before whoever requires it. */
  lemma ProviderBefore(s: Moment, p: FiberId, c: FiberId, k: Key)
    requires Clean(s) && Rising(s, p) && Rising(s, c) && Offers(s, p, k) && Known(s, c) && k in PartOf(s, c).RequiredKeys()
    ensures Round(s, p) < Round(s, c)
  {
    var n := Round(s, c);
    assert FirstRound(s, p, Round(s, p)) && FirstRound(s, c, n);
    assert Offered(s, Rises(s, n - 1), c, k);
    var q :| q in Rises(s, n - 1) && q != c && Offers(s, q, k);
    assert q == p;
  }

  lemma RisingMade(s: Moment, x: FiberId)
    requires Rising(s, x)
    ensures x in s.fibers && Known(s, x)
  {
    var n: nat :| x in Rises(s, n);
  }

  lemma OrderSorts(s: Moment)
    requires Clean(s)
    ensures Sorted(InOrder(s))
  {
    hide Rises, Clean;
    var w := InOrder(s);
    forall p, c | Over(w, p, c) ensures Rank(w, p) < Rank(w, c) {
      assert Over(w, p, c) && Rising(s, p) && p in Rounds(s);
      RisingMade(s, p);
      var k :| k in PartOf(s, p).provide && k in PartOf(s, c).Keys();
      assert Offers(s, p, k);
      assert Rounds(s)[p] <= Top(Rounds(s));
      if Rising(s, c) && PartOf(s, c).provide != [] {
        RisingMade(s, c);
        AllRequired(s, c, k);
        ProviderBefore(s, p, c, k);
      }
    }
  }

  lemma AllRequired(s: Moment, c: FiberId, k: Key)
    requires Clean(s) && c in s.fibers && Known(s, c) && PartOf(s, c).provide != [] && k in PartOf(s, c).Keys()
    ensures k in PartOf(s, c).RequiredKeys()
  {}

  // ---------------------------------------------------------------------------------------------
  // Between operations, what is up has come up in that order

  ghost predicate Feeding(s: Moment, stamps: map<FiberId, nat>, p: FiberId, x: FiberId, k: Key) {
    && p != x && p in s.fibers && s.fibers[p].state == Active && Offers(s, p, k)
    && p in stamps && x in stamps && stamps[p] < stamps[x]
  }

  ghost predicate GroundedAt(s: Moment, stamps: map<FiberId, nat>, x: FiberId)
    requires x in s.fibers
  {
    var f := s.fibers[x];
    && Known(s, x) && f.part == s.made[x] && (f.state == Inactive || f.state == Active)
    && (f.state == Active ==> x in stamps && forall k | k in PartOf(s, x).RequiredKeys() :: k in f.committed)
    && (forall k | k in f.committed :: k in PartOf(s, x).Keys() && f.state == Active && Feeding(s, stamps, f.committed[k], x, k))
    && (forall c | c in f.consumers :: f.state == Active && Known(s, c) && Feeds(PartOf(s, x), PartOf(s, c)))
  }

  /** Nothing is pending, and every view, consumer and bond is one of active fibers, in the order they
      were published in. */
  ghost predicate Grounded(s: Moment, stamps: map<FiberId, nat>) {
    && s.work == []
    && (forall x | x in s.fibers :: GroundedAt(s, stamps, x))
    && (forall k | k in s.bonds ::
          s.bonds[k].provider in s.fibers && s.fibers[s.bonds[k].provider].state == Active && Offers(s, s.bonds[k].provider, k))
  }

  lemma {:induction false} ActiveRises(s: Moment, stamps: map<FiberId, nat>, x: FiberId)
    requires Grounded(s, stamps) && x in s.fibers && s.fibers[x].state == Active
    ensures x in stamps && x in Rises(s, stamps[x] + 1)
    decreases if x in stamps then stamps[x] else 0
  {
    assert GroundedAt(s, stamps, x);
    forall k | k in PartOf(s, x).RequiredKeys() ensures Offered(s, Rises(s, stamps[x]), x, k) {
      var p := s.fibers[x].committed[k];
      assert Feeding(s, stamps, p, x, k);
      ActiveRises(s, stamps, p);
      RisesGrow(s, stamps[p] + 1, stamps[x]);
    }
  }

  lemma ActiveAble(s: Moment, stamps: map<FiberId, nat>, x: FiberId)
    requires Grounded(s, stamps) && x in s.fibers && s.fibers[x].state == Active
    ensures Able(InOrder(s), x)
  {
    hide Rises;
    ActiveRises(s, stamps, x);
    assert GroundedAt(s, stamps, x) && Rising(s, x);
  }

  lemma OrderedFiber(s: Moment, stamps: map<FiberId, nat>, x: FiberId)
    requires Grounded(s, stamps) && x in s.fibers
    ensures FiberOk(InOrder(s), x)
  {
    hide Rises, Feeds, Order;
    var w, f := InOrder(s), s.fibers[x];
    assert GroundedAt(s, stamps, x);
    forall k | k in f.committed ensures k in PartOf(w, x).Keys() && ProvidedBy(w, f.committed[k], k) {
      assert Feeding(s, stamps, f.committed[k], x, k);
      ActiveAble(s, stamps, f.committed[k]);
    }
    if f.state == Active {
      ActiveAble(s, stamps, x);
    }
    forall c | c in f.consumers ensures Over(w, x, c) {}
    if x in w.idle {
      RisesOrLacks(s, x);
      LackingBlocks(s, x);
    }
  }

  lemma LackingBlocks(s: Moment, x: FiberId)
    requires Known(s, x) && Lacks(s, x) && !Rising(s, x)
    ensures Blocked(InOrder(s), x)
  {
    hide Rises, Order;
    var w := InOrder(s);
    var k :| k in PartOf(s, x).RequiredKeys() && forall p | Rising(s, p) && p != x :: !Offers(s, p, k);
    forall p ensures !ProvidedBy(w, p, k) {
      if Rising(s, p) {
        RisingMade(s, p);
      }
    }
    assert k in PartOf(w, x).RequiredKeys();
  }

  /** So the fibers can be put in order whenever a component is mounted. */
  lemma OrderWires(s: Moment, stamps: map<FiberId, nat>)
    requires Grounded(s, stamps) && Clean(s)
    ensures Sortable(s)
  {
    hide Rises, Order, Clean, FiberOk, Sorted;
    var w := InOrder(s);
    OrderSorts(s);
    forall x | x in w.fibers ensures FiberOk(w, x) {
      OrderedFiber(s, stamps, x);
    }
    forall k | k in w.bonds ensures ProvidedBy(w, w.bonds[k].provider, k) {
      ActiveAble(s, stamps, s.bonds[k].provider);
    }
    assert Wired(Reordered(s, Order(s), Still(s)));
  }

  lemma MountGrounds(s: Moment, stamps: map<FiberId, nat>, id: FiberId, slot: Slot, part: char, config: string)
    requires Grounded(s, stamps) && id !in s.made && part in s.parts
    ensures Grounded(AfterMount(s, id, slot, part, config), stamps)
  {
    hide Feeds;
    var w := AfterMount(s, id, slot, part, config);
    forall x | x in s.fibers ensures x in s.made {
      assert GroundedAt(s, stamps, x);
    }
    forall x | x in w.fibers ensures GroundedAt(w, stamps, x) {
      if x != id {
        GroundedStays(s, w, stamps, x, id);
      }
    }
    forall k | k in w.bonds ensures Offers(w, s.bonds[k].provider, k) {
      assert Offers(s, s.bonds[k].provider, k);
    }
  }

  lemma GroundedStays(s: Moment, w: Moment, stamps: map<FiberId, nat>, x: FiberId, id: FiberId)
    requires x in s.fibers && GroundedAt(s, stamps, x) && w.parts == s.parts && id !in s.made && id !in s.fibers
    requires id in w.made && w.made == s.made[id := w.made[id]] && id in w.fibers && w.fibers == s.fibers[id := w.fibers[id]]
    ensures GroundedAt(w, stamps, x)
  {
    hide Feeds;
    var f := s.fibers[x];
    forall k | k in f.committed ensures Feeding(w, stamps, f.committed[k], x, k) {
      assert Feeding(s, stamps, f.committed[k], x, k);
    }
  }
}
