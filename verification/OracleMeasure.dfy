/**
  Why draining ends. Every completed apply lowers, at the lowest dependency rank it disturbs, what the
  fibers there still cost, and raises it by a bounded amount above. Read as digits, lowest rank first,
  the costs of the ranks therefore fall.
 */
module OracleMeasure {
  import opened Oracle
  import opened OracleSteps
  import opened OracleHandlers
  import Graphs
  import Sums

  ghost function AtRank(s: Moment, r: nat): set<FiberId> {
    set x | x in s.fibers && Rank(s, x) == r
  }

  ghost function Costs(s: Moment): map<FiberId, nat> {
    map x | x in s.fibers :: Cost(s, x)
  }

  ghost function RankCost(s: Moment, r: nat): nat {
    Sums.Sum(AtRank(s, r), Costs(s))
  }

  /** No rank rises by this much while a lower one falls. */
  function Radix(s: Moment): nat {
    |s.fibers| * Slack(s) + 1
  }

  /** A number with one more digit. */
  function Digit(high: nat, radix: nat, low: nat): nat {
    high * radix + low
  }

  ghost function Weight(s: Moment, r: nat): nat {
    if r == 0 then RankCost(s, 0) else Digit(Weight(s, r - 1), Radix(s), RankCost(s, r))
  }

  ghost predicate Tops(rank: map<FiberId, nat>, top: nat) {
    forall c | c in rank :: rank[c] <= top
  }

  lemma {:induction false} HasTop(rank: map<FiberId, nat>)
    ensures exists top :: Tops(rank, top)
  {
    if rank == map[] {
      assert Tops(rank, 0);
    } else {
      var c :| c in rank;
      var rest := rank - {c};
      assert |rest.Keys| < |rank.Keys| by { assert rest.Keys == rank.Keys - {c}; }
      HasTop(rest);
      var top :| Tops(rest, top);
      assert forall d | d in rank && d != c :: d in rest && rest[d] == rank[d];
      assert Tops(rank, if rank[c] <= top then top else rank[c]);
    }
  }

  ghost function Top(rank: map<FiberId, nat>): (top: nat)
    ensures Tops(rank, top)
  {
    HasTop(rank);
    var top :| Tops(rank, top);
    top
  }

  ghost function Potential(s: Moment): nat {
    Weight(s, Top(s.rank) + 1)
  }

  lemma SameRanks(s: Moment, w: Moment, r: nat)
    requires SameCast(s, w)
    ensures AtRank(w, r) == AtRank(s, r)
  {
    assert forall x :: Rank(w, x) == Rank(s, x);
  }

  lemma RankCosts(s: Moment, w: Moment, r: nat)
    requires Progress(s, w)
    ensures r <= w.low ==> RankCost(w, r) <= RankCost(s, r)
    ensures r == w.low ==> RankCost(w, r) < RankCost(s, r)
    ensures RankCost(w, r) <= RankCost(s, r) + |s.fibers| * Slack(s)
  {
    hide Cost, Rank;
    SameRanks(s, w, r);
    var xs := AtRank(s, r);
    if r <= w.low {
      Sums.SumLe(xs, Costs(w), Costs(s));
    }
    if r == w.low {
      var y :| y in s.fibers && Rank(s, y) == w.low && Cost(w, y) < Cost(s, y);
      Sums.SumLess(xs, Costs(w), Costs(s), y);
    }
    Sums.SumRaise(xs, Costs(w), Costs(s), Slack(s));
    FewAtRank(s, r);
  }

  lemma FewAtRank(s: Moment, r: nat)
    ensures |AtRank(s, r)| * Slack(s) <= |s.fibers| * Slack(s)
  {
    SubsetSize(AtRank(s, r), s.fibers.Keys);
    Scale(|AtRank(s, r)|, |s.fibers|, Slack(s));
  }

  lemma Scale(a: nat, b: nat, c: nat)
    requires a <= b
    ensures a * c <= b * c
  {}

  lemma Digits(a: nat, b: nat, c: nat, d: nat, radix: nat)
    requires a <= b
    ensures c <= d ==> Digit(a, radix, c) <= Digit(b, radix, d)
    ensures c < d ==> Digit(a, radix, c) < Digit(b, radix, d)
    ensures a < b && c < d + radix ==> Digit(a, radix, c) < Digit(b, radix, d)
  {
    Scale(a, b, radix);
    if a < b {
      Scale(a + 1, b, radix);
    }
  }

  lemma {:induction false} WeightDrops(s: Moment, w: Moment, r: nat)
    requires Progress(s, w)
    ensures Weight(w, r) <= Weight(s, r)
    ensures w.low <= r ==> Weight(w, r) < Weight(s, r)
  {
    hide Progress, RankCost, Slack, Radix, Digit;
    RankCosts(s, w, r);
    if r > 0 {
      WeightDrops(s, w, r - 1);
      SameRadix(s, w);
      Digits(Weight(w, r - 1), Weight(s, r - 1), RankCost(w, r), RankCost(s, r), Radix(s));
    }
  }

  lemma SameRadix(s: Moment, w: Moment)
    requires Progress(s, w)
    ensures Radix(w) == Radix(s) == |s.fibers| * Slack(s) + 1
  {
    SameCount(s, w);
  }

  /** A completed apply lowers the potential. */
  lemma ProgressDrops(s: Moment, w: Moment)
    requires Progress(s, w)
    ensures Potential(w) < Potential(s)
  {
    hide Cost, Weight;
    var y :| y in s.fibers && Rank(s, y) == w.low && Cost(w, y) < Cost(s, y);
    assert Rank(s, y) <= Top(s.rank) + 1;
    WeightDrops(s, w, Top(s.rank) + 1);
  }

  /** Dropping an erased fiber's apply from the queue changes no cost. */
  lemma SkipSame(s: Moment)
    requires s.work != [] && s.work[0] !in s.fibers
    ensures Potential(s.(work := s.work[1..])) == Potential(s)
  {
    hide Cost;
    var w := s.(work := s.work[1..]);
    forall x | x in s.fibers ensures Cost(w, x) == Cost(s, x) {
      SkipCost(s, x);
    }
    assert Costs(w) == Costs(s);
    WeightSame(s, w, Top(s.rank) + 1);
  }

  lemma SkipCost(s: Moment, x: FiberId)
    requires s.work != [] && s.work[0] !in s.fibers && x in s.fibers
    ensures Cost(s.(work := s.work[1..]), x) == Cost(s, x)
  {
    hide Live;
    assert s.work == [s.work[0]] + s.work[1..];
  }

  lemma {:induction false} WeightSame(s: Moment, w: Moment, r: nat)
    requires w == s.(work := w.work) && Costs(w) == Costs(s)
    ensures Weight(w, r) == Weight(s, r)
  {
    hide Cost, Digit;
    assert AtRank(w, r) == AtRank(s, r);
    if r > 0 {
      WeightSame(s, w, r - 1);
    }
  }

  // ---------------------------------------------------------------------------------------------
  // Acyclic pools are the ones that can be ranked

  /** Consumers rank above their declared providers. */
  ghost predicate Ranked(parts: Parts, rank: map<char, nat>) {
    && rank.Keys == parts.Keys
    && forall c, p | c in parts && p in parts && Feeds(parts[p], parts[c]) :: rank[p] < rank[c]
  }

  /** From consumers to their declared providers. */
  function Links(parts: Parts): set<(nat, nat)> {
    set c, p | c in parts && p in parts && Feeds(parts[p], parts[c]) :: (c as int, p as int)
  }

  /** No component depends on itself, directly or through others. */
  ghost predicate Acyclic(parts: Parts) {
    forall c, p | c in parts && p in parts && Feeds(parts[p], parts[c]) :: !Graphs.Reach(Links(parts), p as int, c as int)
  }

  ghost function Below(parts: Parts, c: char): set<char> {
    set p | p in parts && Graphs.Reach(Links(parts), c as int, p as int)
  }

  lemma {:induction false} RankFalls(parts: Parts, rank: map<char, nat>, path: seq<nat>, c: char, p: char)
    requires Ranked(parts, rank) && c in parts && p in parts && Graphs.Via(Links(parts), path, c as int, p as int)
    ensures rank[p] <= rank[c]
    decreases |path|
  {
    if |path| > 1 {
      assert (path[0], path[1]) in Links(parts);
      var a, b :| a in parts && b in parts && Feeds(parts[b], parts[a]) && a as int == path[0] && b as int == path[1];
      assert a == c;
      var rest := path[1..];
      assert forall i | 0 < i < |rest| :: rest[i - 1] == path[i] && rest[i] == path[i + 1];
      assert Graphs.Via(Links(parts), rest, b as int, p as int);
      RankFalls(parts, rank, rest, b, p);
    }
  }

  /** A pool can be ranked exactly when its dependencies are acyclic. */
  lemma RankedIffAcyclic(parts: Parts)
    ensures (exists rank :: Ranked(parts, rank)) <==> Acyclic(parts)
  {
    if rank :| Ranked(parts, rank) {
      forall c, p | c in parts && p in parts && Feeds(parts[p], parts[c])
        ensures !Graphs.Reach(Links(parts), p as int, c as int)
      {
        if Graphs.Reach(Links(parts), p as int, c as int) {
          var path :| Graphs.Via(Links(parts), path, p as int, c as int);
          RankFalls(parts, rank, path, p, c);
        }
      }
    }
    if Acyclic(parts) {
      var rank := map c | c in parts :: |Below(parts, c)|;
      forall c, p | c in parts && p in parts && Feeds(parts[p], parts[c]) ensures rank[p] < rank[c] {
        BelowShrinks(parts, c, p);
      }
      assert Ranked(parts, rank);
    }
  }

  lemma BelowShrinks(parts: Parts, c: char, p: char)
    requires Acyclic(parts) && c in parts && p in parts && Feeds(parts[p], parts[c])
    ensures |Below(parts, p)| < |Below(parts, c)|
  {
    hide Feeds;
    var e := Links(parts);
    assert (c as int, p as int) in e;
    Graphs.ReachLink(e, c as int, p as int);
    Graphs.ReachSelf(e, c as int);
    forall q | q in Below(parts, p) ensures q in Below(parts, c) {
      Graphs.ReachTrans(e, c as int, p as int, q as int);
    }
    assert c in Below(parts, c) && c !in Below(parts, p);
    assert Below(parts, p) <= Below(parts, c) - {c};
    SubsetSize(Below(parts, p), Below(parts, c) - {c});
  }

  // ---------------------------------------------------------------------------------------------
  // Whenever a component is mounted, the fibers are put in order

  /** The fibers can be put in an order of dependency, but for some that cannot come up. */
  ghost predicate Sortable(s: Moment) {
    exists rank, idle :: Wired(Reordered(s, rank, idle))
  }

  /** In an acyclic pool they always can. */
  lemma AcyclicSorts(s: Moment, id: FiberId, slot: Slot, part: char, config: string)
    requires Wired(s) && Acyclic(s.parts) && id !in s.made && part in s.parts
    ensures Sortable(AfterMount(s, id, slot, part, config))
  {
    RankedIffAcyclic(s.parts);
    var order :| Ranked(s.parts, order);
    var u := AfterMount(s, id, slot, part, config);
    var rank := map x | x in u.made :: if u.made[x] in order then order[u.made[x]] else 0;
    var w := Reordered(u, rank, {});
    ByComponent(w, order);
    FreedWired(s, w, id);
  }

  lemma ByComponent(w: Moment, order: map<char, nat>)
    requires Ranked(w.parts, order) && w.rank == map x | x in w.made :: if w.made[x] in order then order[w.made[x]] else 0
    ensures Sorted(w)
  {
    hide Feeds;
  }

  lemma FreedWired(s: Moment, w: Moment, id: FiberId)
    requires Wired(s) && Sorted(w) && w.parts == s.parts && w.bonds == s.bonds && w.work == s.work && w.idle == {}
    requires id !in s.made && id in w.made && w.made == s.made[id := w.made[id]] && Known(w, id)
    requires id in w.fibers && w.fibers == s.fibers[id := w.fibers[id]] && w.fibers[id] == Fresh(w.fibers[id].slot, w.made[id], w.fibers[id].config)
    ensures Wired(w)
  {
    hide Sorted, Over;
    forall x | x in w.fibers ensures FiberOk(w, x) {
      if x != id {
        FreedFiber(s, w, x);
      }
    }
    forall k | k in w.bonds ensures ProvidedBy(w, w.bonds[k].provider, k) {
      assert ProvidedBy(s, s.bonds[k].provider, k);
    }
    assert forall x | x in w.work :: Able(s, x);
  }

  /** Nobody who had to be told apart before has to be now. */
  lemma FreedFiber(s: Moment, w: Moment, x: FiberId)
    requires x in s.fibers && x in w.fibers && w.fibers[x] == s.fibers[x] && FiberOk(s, x)
    requires w.parts == s.parts && w.idle == {} && forall y | y in s.made :: y in w.made && w.made[y] == s.made[y]
    ensures FiberOk(w, x)
  {
    forall c | c in s.fibers[x].consumers ensures Over(w, x, c) {
      assert Over(s, x, c);
    }
    forall k | k in s.fibers[x].committed ensures ProvidedBy(w, s.fibers[x].committed[k], k) {
      assert ProvidedBy(s, s.fibers[x].committed[k], k);
    }
  }
}
