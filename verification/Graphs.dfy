/** Finite directed graphs: reachability and strongly connected components. */
module Graphs {

  type Links = set<(nat, nat)>

  ghost predicate Path(e: Links, path: seq<nat>) {
    && path != []
    && (forall i | 0 < i < |path| :: (path[i - 1], path[i]) in e)
  }

  ghost predicate Via(e: Links, path: seq<nat>, a: nat, b: nat) {
    Path(e, path) && path[0] == a && path[|path| - 1] == b
  }

  ghost predicate Reach(e: Links, a: nat, b: nat) {
    exists path :: Via(e, path, a, b)
  }

  ghost predicate Mutual(e: Links, a: nat, b: nat) {
    Reach(e, a, b) && Reach(e, b, a)
  }

  /** A strongly connected component: everything mutually reachable with one of its members. */
  ghost predicate IsComponent(e: Links, nodes: set<nat>, c: set<nat>) {
    && c != {}
    && c <= nodes
    && (forall a, b | a in c && b in nodes :: b in c <==> Mutual(e, a, b))
  }

  ghost predicate Closed(e: Links, s: set<nat>) {
    forall a, b | a in s && (a, b) in e :: b in s
  }

  lemma ReachSelf(e: Links, a: nat)
    ensures Reach(e, a, a)
  {
    assert Via(e, [a], a, a);
  }

  lemma ReachLink(e: Links, a: nat, b: nat)
    requires (a, b) in e
    ensures Reach(e, a, b)
  {
    assert Via(e, [a, b], a, b);
  }

  lemma ReachTrans(e: Links, a: nat, b: nat, c: nat)
    requires Reach(e, a, b) && Reach(e, b, c)
    ensures Reach(e, a, c)
  {
    var p :| Via(e, p, a, b);
    var q :| Via(e, q, b, c);
    var r := p + q[1..];
    forall i | 0 < i < |r| ensures (r[i - 1], r[i]) in e {
      if i >= |p| {
        var j := i - |p| + 1;
        assert r[i] == q[j] && r[i - 1] == q[j - 1];
      }
    }
    assert Via(e, r, a, c);
  }

  /** Nothing is reached from a closed set but its members. */
  lemma {:induction false} ClosedPath(e: Links, s: set<nat>, path: seq<nat>)
    requires Closed(e, s) && Path(e, path) && path[0] in s
    ensures path[|path| - 1] in s
    decreases |path|
  {
    if |path| > 1 {
      var rest := path[1..];
      assert (path[0], path[1]) in e;
      assert forall i | 0 < i < |rest| :: rest[i - 1] == path[i] && rest[i] == path[i + 1];
      ClosedPath(e, s, rest);
    }
  }

  lemma ClosedReach(e: Links, s: set<nat>, a: nat, b: nat)
    requires Closed(e, s) && a in s && Reach(e, a, b)
    ensures b in s
  {
    var path :| Via(e, path, a, b);
    ClosedPath(e, s, path);
  }

  /** Two components that meet are the same. */
  lemma ComponentsMeet(e: Links, nodes: set<nat>, c: set<nat>, d: set<nat>, a: nat)
    requires IsComponent(e, nodes, c) && IsComponent(e, nodes, d) && a in c && a in d
    ensures c == d
  {
    forall b | b in nodes ensures b in c <==> b in d {}
  }
}
