/**
  The reference machine as a deterministic frame machine: what is still to be called is an explicit
  list of frames, and one step runs the first frame or replaces it by the frames of the calls it makes.
  Sets are iterated in ascending order, as std::set and std::map are.

  It says in one place what both programs do. The reference machine and the engine are separately shown
  to run these frames; since a step leaves no choice, they end in the same state.
 */
module Frames {
  import opened Basics
  import opened Fibers
  import O = Oracle

  // ---------------------------------------------------------------------------------------------
  // Ascending iteration

  predicate IsFirst(s: set<ServiceId>, k: ServiceId) {
    k in s && forall j | j in s :: j == k || KeyLess(k, j)
  }

  lemma {:induction false} HasFirst(s: set<ServiceId>)
    requires s != {}
    ensures exists k :: k in s && IsFirst(s, k)
  {
    var k :| k in s;
    if s == {k} {
      assert IsFirst(s, k);
    } else {
      HasFirst(s - {k});
      var j :| j in s - {k} && IsFirst(s - {k}, j);
      var m := if KeyLess(j, k) then j else k;
      forall i | i in s ensures i == m || KeyLess(m, i) {
        if i != k && i != j {
          assert i in s - {k} && KeyLess(j, i);
          KeysCompare(i, k);
          KeysCompare(j, i);
          if !KeyLess(j, k) {
            KeysChain(k, j, i);
          }
        }
        KeysCompare(j, k);
      }
      assert IsFirst(s, m);
    }
  }

  lemma OneFirst(s: set<ServiceId>, a: ServiceId, b: ServiceId)
    requires IsFirst(s, a) && IsFirst(s, b)
    ensures a == b
  {
    KeysCompare(a, b);
  }

  ghost function First(s: set<ServiceId>): (k: ServiceId)
    requires s != {}
    ensures k in s
  {
    HasFirst(s);
    var k :| IsFirst(s, k);
    k
  }

  lemma FirstIs(s: set<ServiceId>, k: ServiceId)
    requires IsFirst(s, k)
    ensures First(s) == k
  {
    HasFirst(s);
    var j :| IsFirst(s, j) && First(s) == j;
    OneFirst(s, j, k);
  }

  ghost function Lowest(s: set<FiberId>): (x: FiberId)
    requires s != {}
    ensures IsLeast(s, x)
  {
    HasLeast(s);
    var x :| IsLeast(s, x);
    x
  }

  // ---------------------------------------------------------------------------------------------
  // The state

  /** A fiber, as far as the reference machine knows it. */
  datatype Body = Body(
    spec: Component,
    state: FiberState,
    failed: bool,
    error: bool,
    reactivate: int,
    committed: map<ServiceId, FiberId>,
    consumers: set<FiberId>,
    remaining: nat)

  datatype Mark = Ran(id: FiberId) | Cleaned(id: FiberId)

  datatype Snap = Snap(bodies: map<FiberId, Body>, bonds: O.Bonds, work: seq<FiberId>, marks: seq<Mark>)

  predicate Met(bs: O.Bonds, id: FiberId, c: Component) {
    forall k | k in c.RequiredKeys() :: O.Resolves(bs, id, k)
  }

  function Offered(bs: O.Bonds, id: FiberId, c: Component): map<ServiceId, FiberId> {
    map k | k in c.Keys() && O.Resolves(bs, id, k) :: bs[k].provider
  }

  function Listeners(s: Snap, k: ServiceId): set<FiberId> {
    set x | x in s.bodies && k in s.bodies[x].spec.Keys()
  }

  /** The consumers a withdrawing fiber waits for. */
  function Holding(s: Snap, id: FiberId): set<FiberId>
    requires id in s.bodies
  {
    set c | c in s.bodies[id].consumers && c in s.bodies && s.bodies[c].state != Inactive
  }

  function Retiring(bs: O.Bonds, id: FiberId): O.Bonds {
    map k | k in bs :: if bs[k].provider == id then bs[k].(retiring := true) else bs[k]
  }

  function Unbound(bs: O.Bonds, id: FiberId): O.Bonds {
    map k | k in bs && bs[k].provider != id :: bs[k]
  }

  function Bound(bs: O.Bonds, ks: set<ServiceId>, id: FiberId): O.Bonds {
    bs + (map k | k in ks :: O.Bond(id, false))
  }

  // ---------------------------------------------------------------------------------------------
  // The frames (proof/oracle/oracle.hpp:245-398)

  datatype Frame =
    | Eval(id: FiberId)
    | Unload(id: FiberId, flag: bool)
    | UnloadEach(todo: set<FiberId>)
    | MaybeFinish(id: FiberId)
    | Finish(id: FiberId)
    | Release(id: FiberId, view: map<ServiceId, FiberId>)
    | NotifyKeys(keys: set<ServiceId>)
    | NotifyEach(todo: set<FiberId>)
    | Reenter(id: FiberId)
    | Next(raised: bool)
    | Drain(raises: set<FiberId>)
    | Install(id: FiberId, spec: Component)
    | Retire(id: FiberId)
    | Erase(id: FiberId)

  type Todo = seq<Frame>

  function With(s: Snap, id: FiberId, b: Body): Snap {
    s.(bodies := s.bodies[id := b])
  }

  function EvalStep(s: Snap, id: FiberId): (Snap, Todo)
    requires id in s.bodies
  {
    var b := s.bodies[id];
    if (b.state != Inactive && b.state != Active) || b.reactivate < 0 then (s, [])
    else if b.state == Inactive then
      if Met(s.bonds, id, b.spec) && !b.failed then
        var started := b.(state := Loading, error := false, failed := false, committed := Offered(s.bonds, id, b.spec));
        (With(s, id, started).(work := s.work + [id]), [])
      else (With(s, id, b.(error := true)), [])
    else if Met(s.bonds, id, b.spec) && Offered(s.bonds, id, b.spec) == b.committed then (s, [])
    else (s, [Unload(id, Met(s.bonds, id, b.spec))])
  }

  /** The re-entry flag only rises, and a retirement is never lifted. */
  function Raised(b: Body, flag: bool): Body {
    b.(reactivate := if b.reactivate < 0 then b.reactivate else if flag && b.reactivate < 1 then 1 else b.reactivate)
  }

  function UnloadStep(s: Snap, id: FiberId, flag: bool): (Snap, Todo)
    requires id in s.bodies
  {
    var b := Raised(s.bodies[id], flag);
    match b.state
    case Inactive => (With(s, id, b), [])
    case Unloading => (With(s, id, b), [])
    case Loading => (With(s, id, b.(state := Unloading)), [])
    case Active =>
      (With(s, id, b.(state := Unloading, remaining := b.remaining + |Holding(s, id)|)).(bonds := Retiring(s.bonds, id)),
       [UnloadEach(b.consumers), MaybeFinish(id)])
  }

  function FinishStep(s: Snap, id: FiberId): (Snap, Todo)
    requires id in s.bodies
  {
    var b := s.bodies[id];
    (With(s, id, b.(state := Inactive, committed := map[])).(bonds := Unbound(s.bonds, id), marks := s.marks + [Cleaned(id)]),
     [Release(id, b.committed), NotifyKeys(b.spec.provide), Reenter(id)])
  }

  /** Erases `id` from the consumers of one provider and releases its guard. */
  function ReleaseStep(s: Snap, id: FiberId, p: FiberId): (Snap, Todo) {
    if p !in s.bodies then (s, [])
    else
      var b := s.bodies[p];
      if b.remaining > 0 then
        (With(s, p, b.(consumers := b.consumers - {id}, remaining := b.remaining - 1)), [MaybeFinish(p)])
      else (With(s, p, b.(consumers := b.consumers - {id})), [])
  }

  function Landed(b: Body, raised: bool): Body {
    b.(state := Inactive, committed := map[], failed := b.failed || raised, error := b.error || raised || b.state == Unloading)
  }

  /** The fiber is active and among the consumers of its providers. */
  function Enlisted(bodies: map<FiberId, Body>, id: FiberId): map<FiberId, Body>
    requires id in bodies
  {
    var up := bodies[id := bodies[id].(state := Active)];
    map x | x in up ::
      if x in bodies[id].committed.Values then up[x].(consumers := up[x].consumers + {id}) else up[x]
  }

  function NextStep(s: Snap, raised: bool): (Snap, Todo)
    requires s.work != []
  {
    var id := s.work[0];
    var t := s.(work := s.work[1..]);
    if id !in s.bodies then (t, [])
    else
      var b := s.bodies[id];
      var live := O.Live(s.bonds, b.committed);
      if raised || b.state == Unloading || !live then
        (With(t, id, Landed(b, raised)).(bonds := Unbound(s.bonds, id), marks := s.marks + [Ran(id), Cleaned(id)]),
         if !live && b.reactivate >= 0 then [Eval(id)] else [])
      else
        (t.(bodies := Enlisted(s.bodies, id), bonds := Bound(s.bonds, b.spec.provide, id), marks := s.marks + [Ran(id)]),
         [NotifyKeys(b.spec.provide)])
  }

  function FreshBody(c: Component): Body {
    Body(c, Inactive, false, false, 0, map[], {}, 0)
  }

  ghost function Step(s: Snap, f: Frame): (Snap, Todo) {
    match f
    case Eval(id) => if id in s.bodies then EvalStep(s, id) else (s, [])
    case Unload(id, flag) => if id in s.bodies then UnloadStep(s, id, flag) else (s, [])
    case UnloadEach(todo) =>
      if todo == {} then (s, []) else (s, [Unload(Lowest(todo), true), UnloadEach(todo - {Lowest(todo)})])
    case MaybeFinish(id) =>
      (s, if id in s.bodies && s.bodies[id].state == Unloading && s.bodies[id].remaining == 0 then [Finish(id)] else [])
    case Finish(id) => if id in s.bodies then FinishStep(s, id) else (s, [])
    case Release(id, view) =>
      if view == map[] then (s, [])
      else
        var k := First(view.Keys);
        var (t, fs) := ReleaseStep(s, id, view[k]);
        (t, fs + [Release(id, view - {k})])
    case NotifyKeys(keys) =>
      if keys == {} then (s, []) else (s, [NotifyEach(Listeners(s, First(keys))), NotifyKeys(keys - {First(keys)})])
    case NotifyEach(todo) =>
      if todo == {} then (s, []) else (s, [Eval(Lowest(todo)), NotifyEach(todo - {Lowest(todo)})])
    case Reenter(id) =>
      if id in s.bodies && s.bodies[id].reactivate > 0 then (With(s, id, s.bodies[id].(reactivate := 0)), [Eval(id)]) else (s, [])
    case Next(raised) => if s.work == [] then (s, []) else NextStep(s, raised)
    case Drain(raises) => (s, if s.work == [] then [] else [Next(s.work[0] in raises), Drain(raises)])
    case Install(id, c) => (With(s, id, FreshBody(c)), [Eval(id)])
    case Retire(id) =>
      if id in s.bodies then (With(s, id, s.bodies[id].(reactivate := -1)), [Unload(id, false)]) else (s, [])
    case Erase(id) => (s.(bodies := s.bodies - {id}), [])
  }

  // ---------------------------------------------------------------------------------------------
  // Runs

  /** At most `n` steps of running `todo`; nothing when they do not suffice. */
  ghost function Exec(s: Snap, todo: Todo, n: nat): Option<Snap>
    decreases n
  {
    if todo == [] then Some(s)
    else if n == 0 then None
    else
      var (t, fs) := Step(s, todo[0]);
      Exec(t, fs + todo[1..], n - 1)
  }

  ghost predicate Runs(s: Snap, todo: Todo, t: Snap) {
    exists n :: Exec(s, todo, n) == Some(t)
  }

  /** Having `todo` to do at `s` comes to having `rest` to do at `t`. */
  ghost predicate Comes(s: Snap, todo: Todo, t: Snap, rest: Todo) {
    forall u :: Runs(t, rest, u) ==> Runs(s, todo, u)
  }

  lemma {:induction false} ExecMore(s: Snap, todo: Todo, n: nat, m: nat)
    requires n <= m && Exec(s, todo, n).Some?
    ensures Exec(s, todo, m) == Exec(s, todo, n)
    decreases n
  {
    hide Step;
    if todo != [] {
      var (t, fs) := Step(s, todo[0]);
      ExecMore(t, fs + todo[1..], n - 1, m - 1);
    }
  }

  /** A run leaves nothing to choose. */
  lemma RunsUnique(s: Snap, todo: Todo, t: Snap, u: Snap)
    requires Runs(s, todo, t) && Runs(s, todo, u)
    ensures t == u
  {
    hide Exec;
    var n: nat :| Exec(s, todo, n) == Some(t);
    var m: nat :| Exec(s, todo, m) == Some(u);
    ExecMore(s, todo, n, n + m);
    ExecMore(s, todo, m, n + m);
  }

  lemma {:induction false} ExecSplit(s: Snap, todo: Todo, n: nat, t: Snap, rest: Todo, m: nat)
    requires Exec(s, todo, n) == Some(t)
    ensures Exec(s, todo + rest, n + m) == Exec(t, rest, m) || Exec(t, rest, m).None?
    decreases n
  {
    hide Step;
    if Exec(t, rest, m).Some? {
      if todo == [] {
        assert todo + rest == rest;
        ExecMore(t, rest, m, n + m);
      } else {
        var (v, fs) := Step(s, todo[0]);
        ExecSplit(v, fs + todo[1..], n - 1, t, rest, m);
        assert (todo + rest)[1..] == todo[1..] + rest;
        assert fs + todo[1..] + rest == fs + (todo[1..] + rest);
      }
    }
  }

  /** Calls return: what was to be done first is done, and the rest is left. */
  lemma Advance(s: Snap, todo: Todo, t: Snap, rest: Todo)
    requires Comes(s, todo, t, [])
    ensures Comes(s, todo + rest, t, rest)
  {
    hide Exec;
    Done(t);
    forall u | Runs(t, rest, u) ensures Runs(s, todo + rest, u) {
      var n: nat :| Exec(s, todo, n) == Some(t);
      var m: nat :| Exec(t, rest, m) == Some(u);
      ExecSplit(s, todo, n, t, rest, m);
    }
  }

  lemma Done(s: Snap)
    ensures Runs(s, [], s)
  {
    assert Exec(s, [], 0) == Some(s);
  }

  lemma Unfold(s: Snap, f: Frame, rest: Todo)
    ensures Comes(s, [f] + rest, Step(s, f).0, Step(s, f).1 + rest)
  {
    hide Step;
    var (t, fs) := Step(s, f);
    forall u | Runs(t, fs + rest, u) ensures Runs(s, [f] + rest, u) {
      var n: nat :| Exec(t, fs + rest, n) == Some(u);
      assert ([f] + rest)[1..] == rest;
      assert Exec(s, [f] + rest, n + 1) == Some(u);
    }
  }

  lemma ComesRefl(s: Snap, todo: Todo)
    ensures Comes(s, todo, s, todo)
  {}

  lemma ComesTrans(s: Snap, a: Todo, t: Snap, b: Todo, u: Snap, c: Todo)
    requires Comes(s, a, t, b) && Comes(t, b, u, c)
    ensures Comes(s, a, u, c)
  {
    hide Runs;
  }

  lemma ComesDone(s: Snap, todo: Todo, t: Snap)
    requires Comes(s, todo, t, [])
    ensures Runs(s, todo, t)
  {
    hide Runs;
    Done(t);
  }

  // ---------------------------------------------------------------------------------------------
  // How a program shows that it runs frames

  /** The first frame of the list is run or replaced. */
  lemma Enter(s: Snap, f: Frame)
    ensures Comes(s, [f], Step(s, f).0, Step(s, f).1)
  {
    hide Step, Runs;
    Unfold(s, f, []);
    assert [f] + [] == [f] && Step(s, f).1 + [] == Step(s, f).1;
  }

  lemma Both(s: Snap, a: Todo, t: Snap, b: Todo, u: Snap)
    requires Comes(s, a, t, []) && Comes(t, b, u, [])
    ensures Comes(s, a + b, u, [])
  {
    hide Runs;
    Advance(s, a, t, b);
    ComesTrans(s, a + b, t, b, u, []);
  }

  /** One turn of a loop that calls `g`. */
  lemma Turn(s: Snap, f: Frame, g: Frame, rest: Frame, t: Snap)
    requires Step(s, f) == (s, [g, rest]) && Comes(s, [g], t, [])
    ensures Comes(s, [f], t, [rest])
  {
    hide Step, Runs;
    CallsFirst(s, f, s, g, t, rest);
  }

  /** Frames that step alike are alike. */
  lemma Alike(s: Snap, f: Frame, t: Snap, g: Frame)
    requires Step(s, f) == Step(t, g)
    ensures Comes(s, [f], t, [g])
  {
    hide Step;
    var (v, fs) := Step(s, f);
    forall u | Runs(t, [g], u) ensures Runs(s, [f], u) {
      var n: nat :| Exec(t, [g], n) == Some(u);
      assert n > 0 && Exec(v, fs + [g][1..], n - 1) == Some(u);
      assert [g][1..] == [f][1..];
      assert Exec(s, [f], n) == Some(u);
    }
  }

  /** A step that calls nothing. */
  lemma Ends(s: Snap, f: Frame, t: Snap)
    requires Step(s, f) == (t, [])
    ensures Comes(s, [f], t, [])
  {
    hide Step, Runs;
    Enter(s, f);
  }

  /** A step, and then the calls it makes. */
  lemma Calls(s: Snap, f: Frame, t: Snap, fs: Todo, u: Snap)
    requires Step(s, f) == (t, fs) && Comes(t, fs, u, [])
    ensures Comes(s, [f], u, [])
  {
    hide Step, Runs;
    Enter(s, f);
    ComesTrans(s, [f], t, fs, u, []);
  }

  /** Two calls in a row. */
  lemma InTurn(s: Snap, f: Frame, t: Snap, g: Frame, u: Snap)
    requires Comes(s, [f], t, []) && Comes(t, [g], u, [])
    ensures Comes(s, [f, g], u, [])
  {
    hide Runs;
    Both(s, [f], t, [g], u);
    assert [f] + [g] == [f, g];
  }

  lemma ThreeInTurn(s: Snap, f: Frame, t: Snap, g: Frame, u: Snap, h: Frame, v: Snap)
    requires Comes(s, [f], t, []) && Comes(t, [g], u, []) && Comes(u, [h], v, [])
    ensures Comes(s, [f, g, h], v, [])
  {
    hide Runs;
    Both(s, [f], t, [g], u);
    Both(s, [f] + [g], u, [h], v);
    assert [f] + [g] + [h] == [f, g, h];
  }

  /** A step, and then the two calls it makes. */
  lemma CallsTwo(s: Snap, f: Frame, t: Snap, g: Frame, u: Snap, h: Frame, v: Snap)
    requires Step(s, f) == (t, [g, h]) && Comes(t, [g], u, []) && Comes(u, [h], v, [])
    ensures Comes(s, [f], v, [])
  {
    hide Step, Runs;
    InTurn(t, g, u, h, v);
    Calls(s, f, t, [g, h], v);
  }

  /** A step that makes three calls, the first two in one go. */
  lemma CallsThree(s: Snap, f: Frame, t: Snap, g: Frame, h: Frame, u: Snap, i: Frame, v: Snap)
    requires Step(s, f) == (t, [g, h, i]) && Comes(t, [g, h], u, []) && Comes(u, [i], v, [])
    ensures Comes(s, [f], v, [])
  {
    hide Step, Runs;
    Both(t, [g, h], u, [i], v);
    assert [g, h] + [i] == [g, h, i];
    Calls(s, f, t, [g, h, i], v);
  }

  /** A step that makes two calls, of which the first returns. */
  lemma CallsFirst(s: Snap, f: Frame, t: Snap, g: Frame, u: Snap, rest: Frame)
    requires Step(s, f) == (t, [g, rest]) && Comes(t, [g], u, [])
    ensures Comes(s, [f], u, [rest])
  {
    hide Step, Runs;
    Enter(s, f);
    Advance(t, [g], u, [rest]);
    assert [g] + [rest] == [g, rest];
    ComesTrans(s, [f], t, [g, rest], u, [rest]);
  }

  // ---------------------------------------------------------------------------------------------
  // Steps in closed form

  /** Raising the flag first, and then unloading without raising it, is the same. */
  lemma RaisedFirst(v: Snap, x: FiberId, flag: bool)
    requires x in v.bodies
    ensures Step(v, Unload(x, flag)) == Step(With(v, x, Raised(v.bodies[x], flag)), Unload(x, false))
  {
    var b := Raised(v.bodies[x], flag);
    var w := With(v, x, b);
    assert Holding(w, x) == Holding(v, x) && Raised(b, false) == b;
    Overwritten(v, x, b, b);
    Overwritten(v, x, b, b.(state := Unloading));
    Overwritten(v, x, b, b.(state := Unloading, remaining := b.remaining + |Holding(v, x)|));
  }

  lemma Overwritten(v: Snap, x: FiberId, a: Body, b: Body)
    ensures With(With(v, x, a), x, b) == With(v, x, b)
  {
    assert v.bodies[x := a][x := b] == v.bodies[x := b];
  }

  lemma UnloadEachStep(v: Snap, todo: set<FiberId>, c: FiberId)
    requires IsLeast(todo, c)
    ensures Step(v, UnloadEach(todo)) == (v, [Unload(c, true), UnloadEach(todo - {c})])
  {}

  lemma UnloadEachNone(v: Snap)
    ensures Step(v, UnloadEach({})) == (v, [])
  {}

  lemma ReleaseStepAt(v: Snap, id: FiberId, view: map<ServiceId, FiberId>, k: ServiceId)
    requires IsFirst(view.Keys, k)
    ensures k in view
    ensures Step(v, Release(id, view)) ==
      (ReleaseStep(v, id, view[k]).0, ReleaseStep(v, id, view[k]).1 + [Release(id, view - {k})])
  {
    FirstIs(view.Keys, k);
  }

  lemma ReleaseNone(v: Snap, id: FiberId)
    ensures Step(v, Release(id, map[])) == (v, [])
  {}

  lemma NotifyEachNone(v: Snap)
    ensures Step(v, NotifyEach({})) == (v, [])
  {}

  lemma NotifyEachStep(v: Snap, todo: set<FiberId>, c: FiberId)
    requires IsLeast(todo, c)
    ensures Step(v, NotifyEach(todo)) == (v, [Eval(c), NotifyEach(todo - {c})])
  {}

  lemma NotifyKeysStep(v: Snap, keys: set<ServiceId>, k: ServiceId)
    requires IsFirst(keys, k)
    ensures Step(v, NotifyKeys(keys)) == (v, [NotifyEach(Listeners(v, k)), NotifyKeys(keys - {k})])
  {
    FirstIs(keys, k);
  }

  lemma NotifyKeysNone(v: Snap)
    ensures Step(v, NotifyKeys({})) == (v, [])
  {}

  /** Retiring an inactive fiber when no apply is out leaves only the erasure to do. */
  lemma RetireIdle(v: Snap, id: FiberId, raises: set<FiberId>)
    requires id in v.bodies && v.bodies[id].state == Inactive && v.work == []
    ensures Comes(v, [Retire(id), Drain(raises), Erase(id)], v, [Erase(id)])
  {
    hide Comes;
    var b := v.bodies[id].(reactivate := -1);
    var w := With(v, id, b);
    var drain, erase := Drain(raises), Erase(id);
    Overwritten(v, id, b, b);
    Ends(w, Unload(id, false), w);
    Calls(v, Retire(id), w, [Unload(id, false)], w);
    Ends(w, drain, w);
    Both(v, [Retire(id)], w, [drain], w);
    Advance(v, [Retire(id)] + [drain], w, [erase]);
    assert [Retire(id)] + [drain] + [erase] == [Retire(id), drain, erase];
    assert w.bodies - {id} == v.bodies - {id};
    Alike(w, erase, v, erase);
    ComesTrans(v, [Retire(id), drain, erase], w, [erase], v, [erase]);
  }
}
