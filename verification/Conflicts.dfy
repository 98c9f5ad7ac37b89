/** Single-source conflicts: keys with more than one provider, found by sorting provisions (src/runtime.cpp:836-862). */
module Conflicts {
  import opened Fibers
  import opened Diagnostics

  /** An entry of the sorted list: a key and one of its providers. */
  datatype Provision = Provision(key: ServiceId, provider: FiberId)

  // ---------------------------------------------------------------------------------------------
  // Sorting

  predicate Sorted(s: seq<Provision>) {
    forall i, j | 0 <= i < j < |s| :: !KeyLess(s[j].key, s[i].key)
  }

  function Insert(s: seq<Provision>, x: Provision): (r: seq<Provision>)
    ensures multiset(r) == multiset(s) + multiset{x}
  {
    if s == [] then [x]
    else if KeyLess(x.key, s[0].key) then [x] + s
    else
      assert s == [s[0]] + s[1..];
      [s[0]] + Insert(s[1..], x)
  }

  lemma {:induction false} InsertSorted(s: seq<Provision>, x: Provision)
    requires Sorted(s)
    ensures Sorted(Insert(s, x))
  {
    var r := Insert(s, x);
    if s != [] && !KeyLess(x.key, s[0].key) {
      var rest := Insert(s[1..], x);
      InsertSorted(s[1..], x);
      forall i | 0 <= i < |rest| ensures !KeyLess(rest[i].key, s[0].key) {
        assert rest[i] in multiset(rest) && multiset(rest) == multiset(s[1..]) + multiset{x};
        assert rest[i] in s[1..] || rest[i] == x;
      }
    } else if s != [] {
      KeysCompare(x.key, s[0].key);
      forall j | 0 <= j < |s| ensures !KeyLess(s[j].key, x.key) {
        KeysCompare(s[j].key, s[0].key);
        KeysChain(x.key, s[0].key, s[j].key);
      }
    }
  }

  // ---------------------------------------------------------------------------------------------
  // Conflicts

  function Providers(cs: Components, k: ServiceId): set<FiberId> {
    set id | id in cs && k in cs[id].provide
  }

  function ConflictReport(cs: Components, k: ServiceId): Diagnostic {
    Diagnostic(Conflict, k, Providers(cs, k))
  }

  ghost predicate IsConflictReport(cs: Components, d: Diagnostic) {
    |Providers(cs, d.key)| > 1 && d == ConflictReport(cs, d.key)
  }

  predicate Provides(cs: Components, p: Provision) {
    p.provider in cs && p.key in cs[p.provider].provide
  }

  /** The list holds every provision once. */
  ghost predicate Listed(cs: Components, s: seq<Provision>) {
    forall p :: multiset(s)[p] == if Provides(cs, p) then 1 else 0
  }

  lemma Twice(s: seq<Provision>, i: nat, j: nat)
    requires i < j < |s|
    ensures s[i] == s[j] ==> multiset(s)[s[i]] >= 2
  {
    var a, b := s[..j], s[j..];
    assert s == a + b && a[i] == s[i] && b[0] == s[j];
    assert s[i] in multiset(a) && s[j] in multiset(b);
    assert multiset(s) == multiset(a) + multiset(b);
  }

  lemma ListedOnce(cs: Components, s: seq<Provision>, i: nat, j: nat)
    requires Listed(cs, s) && i < j < |s|
    ensures s[i] != s[j]
  {
    Twice(s, i, j);
  }

  lemma ListedSame(cs: Components, s: seq<Provision>, t: seq<Provision>)
    requires Listed(cs, s) && multiset(t) == multiset(s)
    ensures Listed(cs, t)
  {}

  lemma ListedAt(cs: Components, s: seq<Provision>)
    requires Listed(cs, s)
    ensures forall i | 0 <= i < |s| :: Provides(cs, s[i])
    ensures forall p | Provides(cs, p) :: p in s
  {
    forall i | 0 <= i < |s| ensures Provides(cs, s[i]) {
      assert s[i] in multiset(s);
    }
    forall p | Provides(cs, p) ensures p in s {
      assert p in multiset(s);
    }
  }

  /** A stretch of equal keys that cannot be extended either way. */
  ghost predicate Run(s: seq<Provision>, i: nat, j: nat) {
    && i < j <= |s|
    && (forall q | i <= q < j :: s[q].key == s[i].key)
    && (i > 0 ==> s[i - 1].key != s[i].key)
    && (j < |s| ==> s[j].key != s[i].key)
  }

  function Members(s: seq<Provision>, i: nat, j: nat): set<FiberId>
    requires i <= j <= |s|
  {
    set q | i <= q < j :: s[q].provider
  }

  /** In a sorted list all entries of a key are in its run. */
  lemma RunHoldsAll(s: seq<Provision>, i: nat, j: nat, q: nat)
    requires Sorted(s) && Run(s, i, j) && q < |s| && s[q].key == s[i].key
    ensures i <= q < j
  {
    if q < i {
      KeysCompare(s[i - 1].key, s[i].key);
    } else if q >= j {
      KeysCompare(s[j].key, s[i].key);
    }
  }

  /** A run is exactly the providers of its key. */
  lemma RunIsProviders(cs: Components, s: seq<Provision>, i: nat, j: nat)
    requires Listed(cs, s) && Sorted(s) && Run(s, i, j)
    ensures Members(s, i, j) == Providers(cs, s[i].key) && |Members(s, i, j)| == j - i
  {
    hide Listed, Sorted, Run;
    ListedAt(cs, s);
    RunKeys(s, i, j);
    forall id | id in Providers(cs, s[i].key) ensures id in Members(s, i, j) {
      assert Provides(cs, Provision(s[i].key, id));
      var q :| 0 <= q < |s| && s[q] == Provision(s[i].key, id);
      RunHoldsAll(s, i, j, q);
    }
    forall id | id in Members(s, i, j) ensures id in Providers(cs, s[i].key) {
      var q :| i <= q < j && s[q].provider == id;
      assert Provides(cs, s[q]);
    }
    CountMembers(cs, s, i, j);
  }

  lemma RunKeys(s: seq<Provision>, i: nat, j: nat)
    requires Run(s, i, j)
    ensures i < j <= |s| && forall q | i <= q < j :: s[q].key == s[i].key
  {}

  lemma {:induction false} CountMembers(cs: Components, s: seq<Provision>, i: nat, j: nat)
    requires Listed(cs, s) && i <= j <= |s| && forall q | i <= q < j :: s[q].key == s[i].key
    ensures |Members(s, i, j)| == j - i
  {
    hide Listed;
    if i < j {
      CountMembers(cs, s, i, j - 1);
      forall q | i <= q < j - 1 ensures s[q].provider != s[j - 1].provider {
        ListedOnce(cs, s, q, j - 1);
      }
      assert Members(s, i, j) == Members(s, i, j - 1) + {s[j - 1].provider};
      assert s[j - 1].provider !in Members(s, i, j - 1);
    }
  }

  /** Whoever has a provider is somewhere in the list. */
  lemma KeyListed(cs: Components, s: seq<Provision>, k: ServiceId)
    requires Listed(cs, s) && Providers(cs, k) != {}
    ensures exists q :: 0 <= q < |s| && s[q].key == k
  {
    ListedAt(cs, s);
    var id :| id in Providers(cs, k);
    assert Provides(cs, Provision(k, id));
    var q :| 0 <= q < |s| && s[q] == Provision(k, id);
  }

  /** The key has an entry among the first `i`. */
  predicate KeyBefore(s: seq<Provision>, i: nat, k: ServiceId) {
    exists q :: 0 <= q < i && q < |s| && s[q].key == k
  }

  lemma KeyBeforeRun(s: seq<Provision>, i: nat, j: nat, k: ServiceId)
    requires Run(s, i, j)
    ensures KeyBefore(s, j, k) <==> KeyBefore(s, i, k) || k == s[i].key
  {
    if KeyBefore(s, j, k) {
      var q :| 0 <= q < j && q < |s| && s[q].key == k;
      assert q < i || s[q].key == s[i].key;
    }
  }

  /** One more run reported is one more key accounted for. */
  lemma ReportedMore(cs: Components, s: seq<Provision>, i: nat, j: nat, was: set<Diagnostic>, now: set<Diagnostic>)
    requires Run(s, i, j) && Members(s, i, j) == Providers(cs, s[i].key) && |Members(s, i, j)| == j - i
    requires now == if j - i >= 2 then was + {Diagnostic(Conflict, s[i].key, Members(s, i, j))} else was
    ensures forall d :: d in now <==> d in was || (IsConflictReport(cs, d) && d.key == s[i].key)
    ensures forall k :: KeyBefore(s, j, k) <==> KeyBefore(s, i, k) || k == s[i].key
  {
    forall k ensures KeyBefore(s, j, k) <==> KeyBefore(s, i, k) || k == s[i].key {
      KeyBeforeRun(s, i, j, k);
    }
  }

  lemma RunEnds(s: seq<Provision>, i: nat, j: nat)
    requires Run(s, i, j)
    ensures i < j <= |s| && (j == |s| || s[j - 1].key != s[j].key)
  {}

  lemma AllReported(cs: Components, s: seq<Provision>)
    requires Listed(cs, s)
    ensures forall d | IsConflictReport(cs, d) :: KeyBefore(s, |s|, d.key)
  {
    forall d | IsConflictReport(cs, d) ensures KeyBefore(s, |s|, d.key) {
      KeyListed(cs, s, d.key);
    }
  }

  /** Nothing is in conflict exactly when every key has a single source, the engine's first hypothesis. */
  lemma SingleSourceIffNoConflict(cs: Components)
    ensures (forall d :: !IsConflictReport(cs, d)) <==> (forall p, q | p in cs && q in cs && p != q :: cs[p].provide !! cs[q].provide)
  {
    if forall d :: !IsConflictReport(cs, d) {
      forall p, q | p in cs && q in cs && p != q ensures cs[p].provide !! cs[q].provide {
        forall k | k in cs[p].provide ensures k in cs[q].provide ==> IsConflictReport(cs, ConflictReport(cs, k)) {
          if k in cs[q].provide {
            assert {p, q} <= Providers(cs, k) && |{p, q}| == 2;
            Larger({p, q}, Providers(cs, k));
          }
        }
      }
    }
    if d :| IsConflictReport(cs, d) {
      var k := d.key;
      var p :| p in Providers(cs, k);
      assert Providers(cs, k) != {p} by { assert |{p}| == 1; }
      var q :| q in Providers(cs, k) && q != p;
      assert k in cs[p].provide && k in cs[q].provide;
    }
  }

  lemma Larger(a: set<FiberId>, b: set<FiberId>)
    requires a <= b
    ensures |a| <= |b|
  {
    assert b == a + (b - a) && a !! (b - a);
    assert |a + (b - a)| == |a| + |b - a|;
  }
}
