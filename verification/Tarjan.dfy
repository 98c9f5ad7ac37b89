/**
  What each step of the cycle scan keeps (src/runtime.cpp:863-941): a snapshot of its tables, the
  invariant of the depth-first walk, and the argument that what is popped is a component.
 */
module Tarjan {
  import opened Graphs

  /** `done` are the positions already popped, `comps` the popped groups in discovery order. */
  datatype Walk = Walk(
    index: seq<int>,
    low: seq<int>,
    stack: seq<nat>,
    onStack: seq<bool>,
    next: nat,
    done: set<nat>,
    comps: seq<set<nat>>)

  ghost predicate Numbered(w: Walk) {
    && |w.low| == |w.index| && |w.onStack| == |w.index|
    && (forall p | 0 <= p < |w.index| :: -1 <= w.index[p] < w.next)
    && (forall i | 0 <= i < |w.stack| :: w.stack[i] < |w.index| && w.index[w.stack[i]] >= 0)
    && (forall i, j | 0 <= i < j < |w.stack| :: w.index[w.stack[i]] < w.index[w.stack[j]])
    && (forall p | 0 <= p < |w.index| :: w.onStack[p] <==> p in w.stack)
  }

  /** Visited positions are on the stack or popped, never both; calls in progress are on the stack. */
  ghost predicate Colored(w: Walk, gray: set<nat>) {
    && (forall p | p in gray :: p in w.stack)
    && (forall p | p in w.done :: p < |w.index| && p !in w.stack)
    && (forall p | 0 <= p < |w.index| :: w.index[p] >= 0 <==> p in w.stack || p in w.done)
  }

  /** Finished positions have no unvisited successor. */
  ghost predicate Explored(e: Links, w: Walk, gray: set<nat>) {
    forall p, q | (p, q) in e && p < |w.index| && q < |w.index| && w.index[p] >= 0 && p !in gray :: w.index[q] >= 0
  }

  ghost predicate Upward(e: Links, w: Walk) {
    forall i, j | 0 <= i <= j < |w.stack| :: Reach(e, w.stack[i], w.stack[j])
  }

  ghost predicate Anchor(e: Links, w: Walk, gray: set<nat>, p: nat, x: nat) {
    x in gray && x < |w.index| && p < |w.index| && w.index[x] <= w.index[p] && Reach(e, p, x)
  }

  /** Everything on the stack leads back to a call in progress below it. */
  ghost predicate HasAnchor(e: Links, w: Walk, gray: set<nat>, p: nat) {
    exists x :: Anchor(e, w, gray, p, x)
  }

  ghost predicate Anchored(e: Links, w: Walk, gray: set<nat>) {
    forall p | p in w.stack :: HasAnchor(e, w, gray, p)
  }

  lemma AnchorKept(e: Links, v: Walk, w: Walk, gray: set<nat>, more: set<nat>, p: nat)
    requires HasAnchor(e, v, gray, p) && gray <= more
    requires forall q | (q in gray || q == p) && q < |v.index| :: q < |w.index| && w.index[q] == v.index[q]
    ensures HasAnchor(e, w, more, p)
  {
    hide Reach;
    var x :| Anchor(e, v, gray, p, x);
    assert Anchor(e, w, more, p, x);
  }

  ghost predicate Grouped(e: Links, w: Walk) {
    && Closed(e, w.done)
    && (forall c | c in w.comps :: IsComponent(e, Range(|w.index|), c) && c <= w.done)
    && (forall p | p in w.done :: exists i :: 0 <= i < |w.comps| && p in w.comps[i])
    && (forall i, j | 0 <= i < j < |w.comps| :: w.comps[i] !! w.comps[j])
  }

  ghost predicate Walking(e: Links, w: Walk, gray: set<nat>) {
    && Numbered(w)
    && Colored(w, gray)
    && Explored(e, w, gray)
    && Upward(e, w)
    && Anchored(e, w, gray)
    && Grouped(e, w)
  }

  function Range(n: nat): (r: set<nat>)
    ensures forall p: nat :: p in r <==> p < n
  {
    if n == 0 then {} else Range(n - 1) + {n - 1}
  }

  /** What a call leaves as it was. */
  ghost predicate Grown(v: Walk, w: Walk) {
    && |v.index| == |w.index| && |v.low| == |w.low|
    && |v.low| == |v.index|
    && v.next <= w.next
    && (forall p | 0 <= p < |v.index| && v.index[p] >= 0 :: w.index[p] == v.index[p] && w.low[p] == v.low[p])
    && (forall p | 0 <= p < |v.index| && v.index[p] < 0 && w.index[p] >= 0 :: w.index[p] >= v.next)
    && v.stack <= w.stack
  }

  /** Every link from the stack above `k` into the stack below it leads to index `m` at least. */
  ghost predicate Floor(e: Links, w: Walk, k: nat, m: int) {
    forall i, j | k <= i < |w.stack| && 0 <= j < k && (w.stack[i], w.stack[j]) in e ::
      w.stack[j] < |w.index| && m <= w.index[w.stack[j]]
  }

  /** The low link of a position on the stack is the index of something it reaches there. */
  ghost predicate Witness(e: Links, w: Walk, p: nat, m: int) {
    exists y :: y in w.stack && y < |w.index| && w.index[y] == m && Reach(e, p, y)
  }

  ghost predicate Within(e: Links, n: nat) {
    forall p, q | (p, q) in e :: p < n && q < n
  }

  // ---------------------------------------------------------------------------------------------
  // Entering a position

  function Entered(w: Walk, p: nat): Walk
    requires p < |w.index| && p < |w.low| && p < |w.onStack|
  {
    w.(index := w.index[p := w.next], low := w.low[p := w.next], next := w.next + 1,
       stack := w.stack + [p], onStack := w.onStack[p := true])
  }

  lemma EnterNumbered(w: Walk, p: nat)
    requires Numbered(w) && p < |w.index| && w.index[p] < 0
    ensures Numbered(Entered(w, p))
  {
    var x := Entered(w, p);
    forall i | 0 <= i < |w.stack| ensures w.stack[i] != p {}
    forall q | 0 <= q < |w.index| ensures x.onStack[q] <==> q in x.stack {
      assert x.stack[|w.stack|] == p;
      assert q in w.stack ==> q in x.stack;
    }
  }

  lemma EnterReach(e: Links, w: Walk, gray: set<nat>, p: nat, q: nat)
    requires HasAnchor(e, w, gray, q) && forall g | g in gray :: Reach(e, g, p)
    ensures Reach(e, q, p)
  {
    hide Reach;
    var x :| Anchor(e, w, gray, q, x);
    ReachTrans(e, q, x, p);
  }

  lemma EnterColored(e: Links, w: Walk, gray: set<nat>, p: nat)
    requires Numbered(w) && Colored(w, gray) && Explored(e, w, gray)
    requires p < |w.index| && w.index[p] < 0
    ensures Colored(Entered(w, p), gray + {p}) && Explored(e, Entered(w, p), gray + {p})
  {
    var x := Entered(w, p);
    assert x.stack[|w.stack|] == p;
    forall q | 0 <= q < |w.index| ensures q in x.stack <==> q in w.stack || q == p {
      assert q in w.stack ==> q in x.stack;
    }
  }

  lemma EnterAnchored(e: Links, w: Walk, gray: set<nat>, p: nat)
    requires Numbered(w) && Colored(w, gray) && Anchored(e, w, gray)
    requires p < |w.index| && w.index[p] < 0
    ensures Anchored(e, Entered(w, p), gray + {p})
  {
    hide HasAnchor;
    var x := Entered(w, p);
    forall q | q in x.stack ensures HasAnchor(e, x, gray + {p}, q) {
      if q == p {
        ReachSelf(e, p);
        SelfAnchor(e, x, gray + {p}, p);
      } else {
        assert q in w.stack;
        AnchorKept(e, w, x, gray, gray + {p}, q);
      }
    }
  }

  lemma SelfAnchor(e: Links, w: Walk, gray: set<nat>, p: nat)
    requires p in gray && p < |w.index|
    ensures HasAnchor(e, w, gray, p)
  {
    ReachSelf(e, p);
    assert Anchor(e, w, gray, p, p);
  }

  lemma EnterUpward(e: Links, w: Walk, p: nat)
    requires Upward(e, w) && p < |w.index| && p < |w.low| && p < |w.onStack|
    requires forall q | q in w.stack :: Reach(e, q, p)
    ensures Upward(e, Entered(w, p))
  {
    ReachSelf(e, p);
  }

  lemma EnterStep(e: Links, w: Walk, gray: set<nat>, p: nat)
    requires Walking(e, w, gray) && p < |w.index| && w.index[p] < 0 && forall g | g in gray :: Reach(e, g, p)
    ensures Walking(e, Entered(w, p), gray + {p}) && Grown(w, Entered(w, p))
    ensures Witness(e, Entered(w, p), p, w.next)
  {
    hide Explored, Upward, HasAnchor, Reach;
    EnterNumbered(w, p);
    EnterColored(e, w, gray, p);
    forall q | q in w.stack ensures Reach(e, q, p) {
      EnterReach(e, w, gray, p, q);
    }
    EnterUpward(e, w, p);
    EnterAnchored(e, w, gray, p);
    ReachSelf(e, p);
    var x := Entered(w, p);
    assert x.stack[|w.stack|] == p;
    assert p in x.stack && Reach(e, p, p) && x.index[p] == w.next;
  }

  // ---------------------------------------------------------------------------------------------
  // Low links

  lemma LowStep(e: Links, w: Walk, gray: set<nat>, p: nat, m: int)
    requires Walking(e, w, gray) && p < |w.low|
    ensures Walking(e, w.(low := w.low[p := m]), gray)
  {
    hide HasAnchor, Reach;
    var x := w.(low := w.low[p := m]);
    forall q | q in x.stack ensures HasAnchor(e, x, gray, q) {
      AnchorKept(e, w, x, gray, gray, q);
    }
  }

  /** What the loop over the successors of `p` has established; `p` sits at height `k`, and `seen`
      are the successors done so far. */
  ghost predicate Scanning(e: Links, w0: Walk, w: Walk, gray: set<nat>, p: nat, seen: set<nat>) {
    var k := |w0.stack|;
    && Walking(e, w, gray + {p})
    && Grown(w0, w)
    && p < |w.index| && w0.index[p] < 0
    && k < |w.stack| && w.stack[k] == p
    && w.low[p] <= w.index[p]
    && Witness(e, w, p, w.low[p])
    && Floor(e, w, k + 1, w.low[p])
    && SeenDone(w0, w, seen, w.low[p])
  }

  /** Successors done: visited, and none on the stack below the call is under the floor. */
  ghost predicate SeenDone(w0: Walk, w: Walk, seen: set<nat>, m: int) {
    forall q | q in seen :: q < |w.index| && w.index[q] >= 0 && (q in w0.stack ==> m <= w.index[q])
  }

  /** What a call on the unvisited position `q` promises. */
  ghost predicate Called(e: Links, v: Walk, w: Walk, gray: set<nat>, q: nat) {
    && Walking(e, w, gray)
    && Grown(v, w)
    && q < |w.index| && v.index[q] < 0 <= w.index[q]
    && Floor(e, w, |v.stack|, w.low[q])
    && (if q in w.stack then Witness(e, w, q, w.low[q]) else w.low[q] == w.index[q])
  }

  lemma ScanStart(e: Links, w0: Walk, gray: set<nat>, p: nat)
    requires Walking(e, w0, gray) && p < |w0.index| && w0.index[p] < 0 && forall g | g in gray :: Reach(e, g, p)
    ensures Scanning(e, w0, Entered(w0, p), gray, p, {})
  {
    hide Walking, Witness;
    EnterStep(e, w0, gray, p);
  }

  lemma FloorAfterCall(e: Links, v: Walk, w: Walk, k: nat, m: int, q: nat)
    requires Grown(v, w) && k <= |v.stack|
    requires StackIn(v)
    requires Floor(e, v, k, m) && q < |w.index| && Floor(e, w, |v.stack|, w.low[q])
    ensures Floor(e, w, k, if w.low[q] < m then w.low[q] else m)
  {
    forall i, j | k <= i < |w.stack| && 0 <= j < k && (w.stack[i], w.stack[j]) in e
      ensures w.stack[j] < |w.index| && (if w.low[q] < m then w.low[q] else m) <= w.index[w.stack[j]]
    {
      assert w.stack[j] == v.stack[j];
      if i < |v.stack| {
        assert w.stack[i] == v.stack[i];
      }
    }
  }

  lemma WitnessThrough(e: Links, w: Walk, p: nat, q: nat, m: int)
    requires (p, q) in e && Witness(e, w, q, m)
    ensures Witness(e, w, p, m)
  {
    hide Reach;
    var y :| y in w.stack && y < |w.index| && w.index[y] == m && Reach(e, q, y);
    ReachLink(e, p, q);
    ReachTrans(e, p, q, y);
  }

  lemma WitnessKept(e: Links, v: Walk, w: Walk, p: nat, m: int)
    requires Witness(e, v, p, m) && v.stack <= w.stack && |v.index| <= |w.index|
    requires forall y | y in v.stack && y < |v.index| :: w.index[y] == v.index[y]
    ensures Witness(e, w, p, m)
  {
    hide Reach;
    var y :| y in v.stack && y < |v.index| && v.index[y] == m && Reach(e, p, y);
    assert y in w.stack;
  }

  lemma GrownTrans(u: Walk, v: Walk, w: Walk)
    requires Grown(u, v) && Grown(v, w)
    ensures Grown(u, w)
  {}

  /** Lowering the link of a position that was not there to begin with. */
  lemma GrownLow(v: Walk, w: Walk, p: nat, m: int)
    requires Grown(v, w) && p < |v.index| && v.index[p] < 0
    ensures Grown(v, w.(low := w.low[p := m]))
  {}

  lemma AfterCallGrown(e: Links, w0: Walk, v: Walk, w: Walk, gray: set<nat>, p: nat, seen: set<nat>, q: nat)
    requires Scanning(e, w0, v, gray, p, seen) && Grown(v, w)
    requires q < |v.index| && v.index[q] < 0 <= w.index[q]
    ensures Grown(w0, w) && w.low[p] == v.low[p] && w.index[p] == v.index[p] && w.index[q] >= v.next
    ensures v.index[p] < v.next && q != p && |w0.stack| < |v.stack| && w.stack[|w0.stack|] == p
    ensures q !in v.stack
  {
    hide Walking, Witness, Floor, Grown;
    StackVisited(e, v, gray + {p});
    var k := |w0.stack|;
    assert v.stack[k] == p && 0 <= v.index[v.stack[k]] < v.next;
    GrownFacts(v, w, p, q);
    GrownStack(w0, v, w, k);
    GrownTrans(w0, v, w);
  }

  lemma StackVisited(e: Links, w: Walk, gray: set<nat>)
    requires Walking(e, w, gray)
    ensures forall i | 0 <= i < |w.stack| :: w.stack[i] < |w.index| && 0 <= w.index[w.stack[i]] < w.next
    ensures forall q: nat | q < |w.index| && w.index[q] < 0 :: q !in w.stack
    ensures |w.low| == |w.index|
  {}

  lemma GrownFacts(v: Walk, w: Walk, p: nat, q: nat)
    requires Grown(v, w)
    requires p < |v.index| && q < |v.index| && v.index[p] >= 0 && v.index[q] < 0 <= w.index[q]
    ensures w.low[p] == v.low[p] && w.index[p] == v.index[p] && w.index[q] >= v.next
  {}

  lemma GrownStack(u: Walk, v: Walk, w: Walk, i: nat)
    requires Grown(u, v) && Grown(v, w) && i < |v.stack|
    ensures |u.stack| <= |v.stack| && i < |w.stack| && w.stack[i] == v.stack[i]
  {}

  /** After a call on `q` the caller `p` keeps the lower of the two links. */
  function Lowered(w: Walk, p: nat, q: nat): Walk {
    if p < |w.low| && q < |w.low| && w.low[q] < w.low[p] then w.(low := w.low[p := w.low[q]]) else w
  }

  lemma ScanCall(e: Links, w0: Walk, v: Walk, w: Walk, gray: set<nat>, p: nat, seen: set<nat>, q: nat)
    requires Scanning(e, w0, v, gray, p, seen) && Called(e, v, w, gray + {p}, q) && (p, q) in e
    ensures Scanning(e, w0, Lowered(w, p, q), gray, p, seen + {q})
  {
    hide Walking, Witness, Floor, SeenDone, Grown, Called, Lowered;
    CallWalk(e, w0, v, w, gray, p, seen, q);
    CallLinks(e, w0, v, w, gray, p, seen, q);
  }

  ghost predicate Placed(e: Links, w0: Walk, x: Walk, gray: set<nat>, p: nat) {
    && Walking(e, x, gray + {p}) && Grown(w0, x) && p < |x.index| && w0.index[p] < 0
    && |w0.stack| < |x.stack| && x.stack[|w0.stack|] == p && x.low[p] <= x.index[p]
  }

  ghost predicate Linked(e: Links, w0: Walk, x: Walk, p: nat, seen: set<nat>) {
    && p < |x.low|
    && Witness(e, x, p, x.low[p]) && Floor(e, x, |w0.stack| + 1, x.low[p]) && SeenDone(w0, x, seen, x.low[p])
  }

  /** A call leaves the walk in order, and the caller where it was. */
  lemma CallWalk(e: Links, w0: Walk, v: Walk, w: Walk, gray: set<nat>, p: nat, seen: set<nat>, q: nat)
    requires Scanning(e, w0, v, gray, p, seen) && Called(e, v, w, gray + {p}, q)
    ensures Placed(e, w0, Lowered(w, p, q), gray, p)
  {
    hide Walking, Witness, Floor, SeenDone, Grown;
    WalkLengths(e, w, gray + {p});
    GrownSizes(v, w);
    GrownSizes(w0, v);
    AfterCallGrown(e, w0, v, w, gray, p, seen, q);
    if w.low[q] < w.low[p] {
      LowStep(e, w, gray + {p}, p, w.low[q]);
      GrownLow(w0, w, p, w.low[q]);
    }
  }

  /** The caller's link stays witnessed, and a floor under everything done so far. */
  lemma CallLinks(e: Links, w0: Walk, v: Walk, w: Walk, gray: set<nat>, p: nat, seen: set<nat>, q: nat)
    requires Scanning(e, w0, v, gray, p, seen) && Called(e, v, w, gray + {p}, q) && (p, q) in e
    ensures Linked(e, w0, Lowered(w, p, q), p, seen + {q})
  {
    hide Walking, Witness, Floor, SeenDone, Grown, StackIn;
    WalkLengths(e, w, gray + {p});
    StackIsIn(e, v, gray + {p});
    GrownSizes(v, w);
    AfterCallGrown(e, w0, v, w, gray, p, seen, q);
    var x := Lowered(w, p, q);
    var m := x.low[p];
    FloorAfterCall(e, v, w, |w0.stack| + 1, v.low[p], q);
    SameFloor(e, w, x, |w0.stack| + 1, m);
    CallWitness(e, v, w, p, q, v.low[p]);
    SameWitness(e, w, x, p, m);
    CallSeen(w0, v, w, seen, q, v.low[p], m);
    SameSeen(w0, w, x, seen + {q}, m);
  }

  lemma GrownSizes(v: Walk, w: Walk)
    requires Grown(v, w)
    ensures |v.index| == |w.index| && |v.low| == |w.low| && v.stack <= w.stack
  {}

  /** What is on the stack has been visited. */
  ghost predicate StackIn(w: Walk) {
    forall i | 0 <= i < |w.stack| :: w.stack[i] < |w.index| && 0 <= w.index[w.stack[i]] < w.next
  }

  lemma StackIsIn(e: Links, w: Walk, gray: set<nat>)
    requires Walking(e, w, gray)
    ensures StackIn(w)
  {
    hide Colored, Explored, Upward, Anchored, Grouped;
  }

  lemma WalkLengths(e: Links, w: Walk, gray: set<nat>)
    requires Walking(e, w, gray)
    ensures |w.low| == |w.index| == |w.onStack|
  {
    hide Colored, Explored, Upward, Anchored, Grouped;
  }

  /** The lower of the two links has a witness. */
  lemma CallWitness(e: Links, v: Walk, w: Walk, p: nat, q: nat, l: int)
    requires Grown(v, w) && (p, q) in e && q < |w.low| && q < |w.index| && Witness(e, v, p, l)
    requires if q in w.stack then Witness(e, w, q, w.low[q]) else w.low[q] >= l
    requires StackIn(v)
    ensures Witness(e, w, p, if w.low[q] < l then w.low[q] else l)
  {
    hide Witness;
    if w.low[q] < l {
      WitnessThrough(e, w, p, q, w.low[q]);
    } else {
      WitnessKept(e, v, w, p, l);
    }
  }

  lemma CallSeen(w0: Walk, v: Walk, w: Walk, seen: set<nat>, q: nat, l: int, m: int)
    requires Grown(w0, v) && Grown(v, w) && SeenDone(w0, v, seen, l) && m <= l
    requires q < |w.index| && w.index[q] >= 0 && q !in v.stack
    ensures SeenDone(w0, w, seen + {q}, m)
  {
    assert w0.stack <= v.stack;
    assert q !in w0.stack;
  }

  lemma SameSeen(w0: Walk, w: Walk, x: Walk, seen: set<nat>, m: int)
    requires SeenDone(w0, w, seen, m) && x.index == w.index
    ensures SeenDone(w0, x, seen, m)
  {}

  lemma SameFloor(e: Links, w: Walk, x: Walk, k: nat, m: int)
    requires Floor(e, w, k, m) && x.index == w.index && x.stack == w.stack
    ensures Floor(e, x, k, m)
  {}

  lemma SameWitness(e: Links, w: Walk, x: Walk, p: nat, m: int)
    requires Witness(e, w, p, m) && x.index == w.index && x.stack == w.stack
    ensures Witness(e, x, p, m)
  {}

  lemma LowerFloor(e: Links, w: Walk, k: nat, m: int, l: int)
    requires Floor(e, w, k, m) && l <= m
    ensures Floor(e, w, k, l)
  {}

  /** A successor already visited: on the stack it may lower the link, popped it counts for nothing. */
  lemma ScanVisited(e: Links, w0: Walk, v: Walk, gray: set<nat>, p: nat, seen: set<nat>, q: nat)
    requires Scanning(e, w0, v, gray, p, seen) && (p, q) in e && q < |v.index| && v.index[q] >= 0
    ensures p < |v.low| && q < |v.onStack|
    ensures v.onStack[q] ==>
      var m := if v.index[q] < v.low[p] then v.index[q] else v.low[p];
      Scanning(e, w0, v.(low := v.low[p := m]), gray, p, seen + {q})
    ensures !v.onStack[q] ==> Scanning(e, w0, v, gray, p, seen + {q})
  {
    hide Explored, Upward, Anchored, Grouped, Reach, Witness, Floor;
    assert w0.stack <= v.stack;
    if v.onStack[q] {
      var m := if v.index[q] < v.low[p] then v.index[q] else v.low[p];
      var x := v.(low := v.low[p := m]);
      LowStep(e, v, gray + {p}, p, m);
      GrownLow(w0, v, p, m);
      LowerFloor(e, v, |w0.stack| + 1, v.low[p], m);
      SameFloor(e, v, x, |w0.stack| + 1, m);
      if m < v.low[p] {
        LinkWitness(e, v, p, q);
      }
      SameWitness(e, v, x, p, m);
    } else {
      assert q !in v.stack;
    }
  }

  lemma LinkWitness(e: Links, w: Walk, p: nat, q: nat)
    requires (p, q) in e && q in w.stack && q < |w.index|
    ensures Witness(e, w, p, w.index[q])
  {
    ReachLink(e, p, q);
  }

  // ---------------------------------------------------------------------------------------------
  // Leaving a position

  ghost predicate Successors(e: Links, p: nat, seen: set<nat>) {
    forall q :: (p, q) in e <==> q in seen
  }

  lemma FullFloor(e: Links, w0: Walk, w: Walk, gray: set<nat>, p: nat, seen: set<nat>)
    requires Scanning(e, w0, w, gray, p, seen) && Successors(e, p, seen)
    ensures Floor(e, w, |w0.stack|, w.low[p])
  {
    hide Explored, Upward, Anchored, Grouped, Reach, Witness;
    var k := |w0.stack|;
    forall i, j | k <= i < |w.stack| && 0 <= j < k && (w.stack[i], w.stack[j]) in e
      ensures w.stack[j] < |w.index| && w.low[p] <= w.index[w.stack[j]]
    {
      if i == k {
        assert w.stack[j] in seen;
        assert w.stack[j] == w0.stack[j];
      } else {
        assert j < k + 1;
      }
    }
  }

  lemma LeaveExplored(e: Links, w: Walk, gray: set<nat>, p: nat, seen: set<nat>)
    requires Explored(e, w, gray + {p}) && Successors(e, p, seen)
    requires forall q | q in seen :: q < |w.index| && w.index[q] >= 0
    ensures Explored(e, w, gray)
  {}

  /** A position whose link is below its own leads to a call in progress below it. */
  lemma Reanchor(e: Links, w: Walk, gray: set<nat>, p: nat, q: nat)
    requires p < |w.low| && p < |w.index| && Anchored(e, w, gray + {p}) && Witness(e, w, p, w.low[p])
    requires w.low[p] < w.index[p] && HasAnchor(e, w, gray + {p}, q)
    ensures HasAnchor(e, w, gray, q)
  {
    hide Reach, Anchored;
    var x :| Anchor(e, w, gray + {p}, q, x);
    if x == p {
      var y :| y in w.stack && y < |w.index| && w.index[y] == w.low[p] && Reach(e, p, y);
      AnchoredAt(e, w, gray + {p}, y);
      var z :| Anchor(e, w, gray + {p}, y, z);
      ReachTrans(e, q, p, y);
      ReachTrans(e, q, y, z);
      assert Anchor(e, w, gray, q, z);
    } else {
      assert Anchor(e, w, gray, q, x);
    }
  }

  lemma AnchoredAt(e: Links, w: Walk, gray: set<nat>, p: nat)
    requires Anchored(e, w, gray) && p in w.stack
    ensures HasAnchor(e, w, gray, p)
  {}

  /** Returning without popping. */
  lemma ReturnStep(e: Links, w0: Walk, w: Walk, gray: set<nat>, p: nat, seen: set<nat>)
    requires Scanning(e, w0, w, gray, p, seen) && Successors(e, p, seen) && w.low[p] != w.index[p]
    ensures Called(e, w0, w, gray, p)
  {
    hide HasAnchor, Upward, Grouped, Reach, Witness, Floor, Explored;
    FullFloor(e, w0, w, gray, p, seen);
    LeaveExplored(e, w, gray, p, seen);
    forall q | q in w.stack ensures HasAnchor(e, w, gray, q) {
      Reanchor(e, w, gray, p, q);
    }
    assert p in w.stack && w.index[p] >= 0;
  }

  // ---------------------------------------------------------------------------------------------
  // Popping a component

  function Top(w: Walk, k: nat): set<nat> {
    set i | k <= i < |w.stack| :: w.stack[i]
  }

  ghost predicate PoppedTo(w: Walk, x: Walk, k: nat) {
    && k <= |w.stack|
    && x.index == w.index && x.low == w.low && x.next == w.next
    && x.stack == w.stack[..k]
    && |x.onStack| == |w.onStack|
    && (forall q | 0 <= q < |w.onStack| :: x.onStack[q] <==> w.onStack[q] && q !in Top(w, k))
    && x.done == w.done + Top(w, k)
    && x.comps == w.comps + [Top(w, k)]
  }

  /** The stack splits into what lies below `k` and what is popped. */
  lemma Split(w: Walk, k: nat, q: nat)
    requires Numbered(w) && k <= |w.stack|
    ensures q in w.stack <==> q in w.stack[..k] || q in Top(w, k)
    ensures !(q in w.stack[..k] && q in Top(w, k))
  {
    if q in w.stack {
      var i :| 0 <= i < |w.stack| && w.stack[i] == q;
      assert i < k ==> w.stack[..k][i] == q;
    }
  }

  /** Before the pop: the call on `p`, at height `k`, has found no link below itself. */
  ghost predicate Ripe(e: Links, w: Walk, gray: set<nat>, p: nat, k: nat) {
    && Walking(e, w, gray + {p}) && Explored(e, w, gray)
    && k < |w.stack| && w.stack[k] == p && p !in gray
    && (forall g | g in gray :: g in w.stack[..k])
    && Floor(e, w, k, w.index[p])
    && Within(e, |w.index|)
  }

  lemma NothingBelow(e: Links, w: Walk, gray: set<nat>, p: nat, k: nat, a: nat, b: nat)
    requires Ripe(e, w, gray, p, k) && a in Top(w, k) && (a, b) in e
    ensures b in w.done + Top(w, k)
  {
    hide Upward, Anchored, Grouped;
    Split(w, k, b);
    Split(w, k, a);
    var i :| k <= i < |w.stack| && w.stack[i] == a;
    forall j | 0 <= j < k ensures (a, w.stack[j]) !in e {
      assert w.index[w.stack[j]] < w.index[w.stack[k]];
    }
  }

  lemma DoneClosed(e: Links, w: Walk, gray: set<nat>, p: nat, k: nat)
    requires Ripe(e, w, gray, p, k)
    ensures Closed(e, w.done + Top(w, k))
  {
    hide Numbered, Colored, Explored, Upward, Anchored, Top, Floor;
    forall a, b | a in w.done + Top(w, k) && (a, b) in e ensures b in w.done + Top(w, k) {
      if a in Top(w, k) {
        NothingBelow(e, w, gray, p, k, a, b);
      }
    }
  }

  lemma TopReachesBase(e: Links, w: Walk, gray: set<nat>, p: nat, k: nat, a: nat)
    requires Ripe(e, w, gray, p, k) && a in Top(w, k)
    ensures Reach(e, p, a) && Reach(e, a, p)
  {
    hide Reach, Explored, Floor, Grouped, HasAnchor, Closed;
    var i :| k <= i < |w.stack| && w.stack[i] == a;
    assert Reach(e, w.stack[k], w.stack[i]);
    DoneClosed(e, w, gray, p, k);
    Split(w, k, a);
    forall x | x in gray ensures x !in w.done + Top(w, k) {
      Split(w, k, x);
    }
    BackToBase(e, w, gray, p, w.done + Top(w, k), a);
  }

  lemma BackToBase(e: Links, w: Walk, gray: set<nat>, p: nat, s: set<nat>, a: nat)
    requires HasAnchor(e, w, gray + {p}, a) && Closed(e, s) && a in s
    requires forall x | x in gray :: x !in s
    ensures Reach(e, a, p)
  {
    hide Reach;
    var x :| Anchor(e, w, gray + {p}, a, x);
    ClosedReach(e, s, a, x);
  }

  lemma TopIsComponent(e: Links, w: Walk, gray: set<nat>, p: nat, k: nat)
    requires Ripe(e, w, gray, p, k)
    ensures IsComponent(e, Range(|w.index|), Top(w, k))
    ensures Top(w, k) !! w.done
  {
    hide Reach, Explored, Floor, Anchored, Upward;
    var top := Top(w, k);
    assert p in top;
    forall a | a in top ensures a < |w.index| && a !in w.done && Reach(e, p, a) && Reach(e, a, p) {
      TopReachesBase(e, w, gray, p, k, a);
      Split(w, k, a);
    }
    DoneClosed(e, w, gray, p, k);
    forall a, b | a in top && b in Range(|w.index|) ensures b in top <==> Mutual(e, a, b) {
      if b in top {
        ReachTrans(e, a, p, b);
        ReachTrans(e, b, p, a);
      } else if Mutual(e, a, b) {
        ClosedReach(e, w.done + top, a, b);
        ClosedReach(e, w.done, b, a);
      }
    }
  }

  lemma PopNumbered(w: Walk, x: Walk, k: nat)
    requires Numbered(w) && PoppedTo(w, x, k)
    ensures Numbered(x)
  {
    hide Top;
    forall q: nat | 0 <= q < |w.index| ensures x.onStack[q] <==> q in x.stack {
      Split(w, k, q);
    }
  }

  lemma PopColored(e: Links, w: Walk, x: Walk, gray: set<nat>, p: nat, k: nat)
    requires Ripe(e, w, gray, p, k) && PoppedTo(w, x, k)
    ensures Colored(x, gray) && Explored(e, x, gray)
  {
    hide Top, Floor, Upward, Anchored, Grouped;
    forall q: nat ensures q in w.stack <==> q in x.stack || q in Top(w, k) {
      Split(w, k, q);
    }
    forall q | q in Top(w, k) ensures q < |w.index| && q !in x.stack {
      Split(w, k, q);
    }
  }

  lemma PopAnchored(e: Links, w: Walk, x: Walk, gray: set<nat>, p: nat, k: nat)
    requires Ripe(e, w, gray, p, k) && PoppedTo(w, x, k)
    ensures Anchored(e, x, gray)
  {
    hide Top, Floor, Upward, HasAnchor, Explored, Grouped, Colored, Reach;
    forall q | q in x.stack ensures HasAnchor(e, x, gray, q) {
      var i :| 0 <= i < |x.stack| && x.stack[i] == q;
      assert w.stack[i] == q && w.index[w.stack[i]] < w.index[w.stack[k]];
      AnchorBelow(e, w, x, gray, p, q);
    }
  }

  lemma AnchorBelow(e: Links, w: Walk, x: Walk, gray: set<nat>, p: nat, q: nat)
    requires HasAnchor(e, w, gray + {p}, q) && x.index == w.index
    requires q < |w.index| && p < |w.index| && w.index[q] < w.index[p]
    ensures HasAnchor(e, x, gray, q)
  {
    hide Reach;
    var g :| Anchor(e, w, gray + {p}, q, g);
    assert Anchor(e, x, gray, q, g);
  }

  lemma PopGrouped(e: Links, w: Walk, x: Walk, gray: set<nat>, p: nat, k: nat)
    requires Ripe(e, w, gray, p, k) && PoppedTo(w, x, k)
    ensures Grouped(e, x)
  {
    hide Top, Floor, Upward, HasAnchor, Explored, Colored, Numbered, Anchored, IsComponent;
    DoneClosed(e, w, gray, p, k);
    TopIsComponent(e, w, gray, p, k);
    forall i | 0 <= i < |w.comps| ensures w.comps[i] !! Top(w, k) {
      assert w.comps[i] in w.comps;
    }
    forall q | q in x.done ensures exists i :: 0 <= i < |x.comps| && q in x.comps[i] {
      if q in w.done {
        var i :| 0 <= i < |w.comps| && q in w.comps[i];
        assert x.comps[i] == w.comps[i];
      } else {
        assert x.comps[|w.comps|] == Top(w, k);
      }
    }
  }

  lemma PopUpward(e: Links, w: Walk, x: Walk, k: nat)
    requires Upward(e, w) && PoppedTo(w, x, k)
    ensures Upward(e, x)
  {
    hide Reach;
    forall i, j | 0 <= i <= j < |x.stack| ensures Reach(e, x.stack[i], x.stack[j]) {
      assert x.stack[i] == w.stack[i] && x.stack[j] == w.stack[j];
    }
  }

  lemma ScanRipe(e: Links, w0: Walk, w: Walk, gray: set<nat>, p: nat, seen: set<nat>)
    requires Walking(e, w0, gray) && Scanning(e, w0, w, gray, p, seen) && Successors(e, p, seen)
    requires w.low[p] == w.index[p] && Within(e, |w.index|)
    ensures Ripe(e, w, gray, p, |w0.stack|)
  {
    hide Upward, Anchored, Grouped, Floor, Witness;
    FullFloor(e, w0, w, gray, p, seen);
    LeaveExplored(e, w, gray, p, seen);
    assert w.stack[..|w0.stack|] == w0.stack;
  }

  /** Returning after popping: what was popped is a component. */
  lemma PopStep(e: Links, w0: Walk, w: Walk, x: Walk, gray: set<nat>, p: nat, seen: set<nat>)
    requires Walking(e, w0, gray) && Scanning(e, w0, w, gray, p, seen) && Successors(e, p, seen)
    requires w.low[p] == w.index[p] && Within(e, |w.index|) && PoppedTo(w, x, |w0.stack|)
    ensures Called(e, w0, x, gray, p)
    ensures Top(w, |w0.stack|) != {}
  {
    hide Explored, Upward, Anchored, Grouped, Floor, Witness, Numbered, Colored;
    var k := |w0.stack|;
    ScanRipe(e, w0, w, gray, p, seen);
    PopNumbered(w, x, k);
    PopColored(e, w, x, gray, p, k);
    PopAnchored(e, w, x, gray, p, k);
    PopGrouped(e, w, x, gray, p, k);
    PopUpward(e, w, x, k);
    EmptyFloor(e, x, k, x.low[p]);
    Split(w, k, p);
    StackVisited(e, w, gray + {p});
    assert w.stack[k] in Top(w, k) && w.index[w.stack[k]] >= 0;
    assert w.stack[..k] == w0.stack;
  }

  lemma EmptyFloor(e: Links, w: Walk, k: nat, m: int)
    requires |w.stack| == k
    ensures Floor(e, w, k, m)
  {}

  // ---------------------------------------------------------------------------------------------
  // The whole walk

  /** With every position visited and no call in progress, the popped groups are the components. */
  lemma WalkDone(e: Links, w: Walk)
    requires Walking(e, w, {}) && forall p | 0 <= p < |w.index| :: w.index[p] >= 0
    ensures forall c :: IsComponent(e, Range(|w.index|), c) <==> c in w.comps
  {
    hide Upward, Reach;
    assert w.stack != [] ==> w.stack[0] in w.stack && HasAnchor(e, w, {}, w.stack[0]);
    forall c | IsComponent(e, Range(|w.index|), c) ensures c in w.comps {
      var a :| a in c;
      assert a in w.done;
      var i :| 0 <= i < |w.comps| && a in w.comps[i];
      ComponentsMeet(e, Range(|w.index|), c, w.comps[i], a);
    }
  }
}
