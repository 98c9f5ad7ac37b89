/**
  Two runs of the frames from scratch in which an optional dependency does what the promise made to
  such consumers (include/araya/plugin_context.hpp:150-155) and the code's own assertions
  (src/runtime.cpp:708) rule out.
 */
module FrameRuns {
  import opened Basics
  import opened Fibers
  import opened Frames
  import O = Oracle

  const EMPTY := Snap(map[], map[], [], [])

  // ---------------------------------------------------------------------------------------------
  // Reaching a point of a run

  /** What is left to be done, and where, after at most `n` steps. */
  ghost function Steps(s: Snap, todo: Todo, n: nat): (Snap, Todo)
    decreases n
  {
    if todo == [] || n == 0 then (s, todo)
    else
      var (t, fs) := Step(s, todo[0]);
      Steps(t, fs + todo[1..], n - 1)
  }

  /** Running `todo` at `s` passes `t` with `rest` to do. */
  ghost predicate Reaches(s: Snap, todo: Todo, t: Snap, rest: Todo) {
    exists n: nat :: Steps(s, todo, n) == (t, rest)
  }

  lemma {:induction false} StepsThen(s: Snap, todo: Todo, n: nat, m: nat)
    ensures var c := Steps(s, todo, n); exists i: nat :: Steps(s, todo, i) == Steps(c.0, c.1, m)
    decreases n
  {
    hide Step;
    if todo == [] || n == 0 {
      assert Steps(s, todo, m) == Steps(s, todo, m);
    } else {
      var (t, fs) := Step(s, todo[0]);
      StepsThen(t, fs + todo[1..], n - 1, m);
      var c := Steps(s, todo, n);
      var i: nat :| Steps(t, fs + todo[1..], i) == Steps(c.0, c.1, m);
      assert Steps(s, todo, i + 1) == Steps(c.0, c.1, m);
    }
  }

  lemma {:induction false} StepsBeside(s: Snap, todo: Todo, n: nat, more: Todo)
    ensures var c := Steps(s, todo, n); exists i: nat :: Steps(s, todo + more, i) == (c.0, c.1 + more)
    decreases n
  {
    hide Step;
    var c := Steps(s, todo, n);
    if todo == [] || n == 0 {
      assert Steps(s, todo + more, 0) == (c.0, c.1 + more);
    } else {
      var (t, fs) := Step(s, todo[0]);
      StepsBeside(t, fs + todo[1..], n - 1, more);
      var i: nat :| Steps(t, fs + todo[1..] + more, i) == (c.0, c.1 + more);
      assert (todo + more)[1..] == todo[1..] + more && (todo + more)[0] == todo[0];
      assert fs + todo[1..] + more == fs + (todo[1..] + more);
      assert Steps(s, todo + more, i + 1) == (c.0, c.1 + more);
    }
  }

  lemma Here(s: Snap, todo: Todo)
    ensures Reaches(s, todo, s, todo)
  {
    assert Steps(s, todo, 0) == (s, todo);
  }

  lemma Further(s: Snap, a: Todo, t: Snap, b: Todo, u: Snap, c: Todo)
    requires Reaches(s, a, t, b) && Reaches(t, b, u, c)
    ensures Reaches(s, a, u, c)
  {
    hide Steps;
    var n: nat :| Steps(s, a, n) == (t, b);
    var m: nat :| Steps(t, b, m) == (u, c);
    StepsThen(s, a, n, m);
  }

  lemma Beside(s: Snap, a: Todo, t: Snap, b: Todo, more: Todo)
    requires Reaches(s, a, t, b)
    ensures Reaches(s, a + more, t, b + more)
  {
    hide Steps;
    var n: nat :| Steps(s, a, n) == (t, b);
    StepsBeside(s, a, n, more);
  }

  lemma OneStep(s: Snap, f: Frame)
    ensures Reaches(s, [f], Step(s, f).0, Step(s, f).1)
  {
    hide Step;
    var (t, fs) := Step(s, f);
    assert fs + [f][1..] == fs;
    assert Steps(t, fs, 0) == (t, fs);
    assert Steps(s, [f], 1) == (t, fs);
  }

  lemma {:induction false} StepsRun(s: Snap, todo: Todo, n: nat, t: Snap)
    requires Steps(s, todo, n) == (t, [])
    ensures Exec(s, todo, n) == Some(t)
    decreases n
  {
    hide Step;
    if todo != [] && n > 0 {
      var (u, fs) := Step(s, todo[0]);
      StepsRun(u, fs + todo[1..], n - 1, t);
    }
  }

  /** With nothing left to do, the run is complete. */
  lemma Arrives(s: Snap, todo: Todo, t: Snap)
    requires Reaches(s, todo, t, [])
    ensures Runs(s, todo, t)
  {
    hide Exec, Steps;
    var n: nat :| Steps(s, todo, n) == (t, []);
    StepsRun(s, todo, n, t);
  }

  // ---------------------------------------------------------------------------------------------
  // Calls that return

  lemma Calling(s: Snap, f: Frame, t: Snap, fs: Todo, u: Snap)
    requires Step(s, f) == (t, fs) && Reaches(t, fs, u, [])
    ensures Reaches(s, [f], u, [])
  {
    hide Step, Reaches;
    OneStep(s, f);
    Further(s, [f], t, fs, u, []);
  }

  lemma Returning(s: Snap, f: Frame, t: Snap)
    requires Step(s, f) == (t, [])
    ensures Reaches(s, [f], t, [])
  {
    hide Step, Reaches;
    OneStep(s, f);
  }

  lemma Then(s: Snap, a: Todo, t: Snap, b: Todo, u: Snap, c: Todo)
    requires Reaches(s, a, t, []) && Reaches(t, b, u, c)
    ensures Reaches(s, a + b, u, c)
  {
    hide Reaches;
    Beside(s, a, t, [], b);
    assert [] + b == b;
    Further(s, a + b, t, b, u, c);
  }

  lemma Three(s: Snap, f: Frame, t: Snap, g: Frame, u: Snap, h: Frame, v: Snap)
    requires Reaches(s, [f], t, []) && Reaches(t, [g], u, []) && Reaches(u, [h], v, [])
    ensures Reaches(s, [f, g, h], v, [])
  {
    hide Reaches;
    Then(s, [f], t, [g], u, []);
    Then(s, [f] + [g], u, [h], v, []);
    assert [f] + [g] + [h] == [f, g, h];
  }

  lemma Two(s: Snap, f: Frame, t: Snap, g: Frame, u: Snap)
    requires Reaches(s, [f], t, []) && Reaches(t, [g], u, [])
    ensures Reaches(s, [f, g], u, [])
  {
    hide Reaches;
    Then(s, [f], t, [g], u, []);
    assert [f] + [g] == [f, g];
  }

  /** One turn of a loop over consumers. */
  lemma UnloadsNext(s: Snap, todo: set<FiberId>, c: FiberId, t: Snap, u: Snap)
    requires IsLeast(todo, c) && Reaches(s, [Unload(c, true)], t, []) && Reaches(t, [UnloadEach(todo - {c})], u, [])
    ensures Reaches(s, [UnloadEach(todo)], u, [])
  {
    hide Step, Reaches;
    UnloadEachStep(s, todo, c);
    Two(s, Unload(c, true), t, UnloadEach(todo - {c}), u);
    Calling(s, UnloadEach(todo), s, [Unload(c, true), UnloadEach(todo - {c})], u);
  }

  lemma UnloadsLast(s: Snap, c: FiberId, t: Snap)
    requires Reaches(s, [Unload(c, true)], t, [])
    ensures Reaches(s, [UnloadEach({c})], t, [])
  {
    hide Step, Reaches;
    UnloadsNone(t);
    assert {c} - {c} == {};
    UnloadsNext(s, {c}, c, t, t);
  }

  lemma UnloadsNone(s: Snap)
    ensures Reaches(s, [UnloadEach({})], s, [])
  {
    hide Reaches;
    Returning(s, UnloadEach({}), s);
  }

  /** One turn of a loop over the fibers to notify. */
  lemma NotifiesNext(s: Snap, todo: set<FiberId>, c: FiberId, t: Snap, u: Snap)
    requires IsLeast(todo, c) && Reaches(s, [Eval(c)], t, []) && Reaches(t, [NotifyEach(todo - {c})], u, [])
    ensures Reaches(s, [NotifyEach(todo)], u, [])
  {
    hide Step, Reaches;
    NotifyEachStep(s, todo, c);
    Two(s, Eval(c), t, NotifyEach(todo - {c}), u);
    Calling(s, NotifyEach(todo), s, [Eval(c), NotifyEach(todo - {c})], u);
  }

  lemma NotifiesLast(s: Snap, c: FiberId, t: Snap)
    requires Reaches(s, [Eval(c)], t, [])
    ensures Reaches(s, [NotifyEach({c})], t, [])
  {
    hide Step, Reaches;
    NotifyEachNone(t);
    Returning(t, NotifyEach({}), t);
    assert {c} - {c} == {};
    NotifiesNext(s, {c}, c, t, t);
  }

  /** Notifying whoever declares a key. */
  lemma NotifiesKey(s: Snap, k: ServiceId, t: Snap)
    requires Reaches(s, [NotifyEach(Listeners(s, k))], t, [])
    ensures Reaches(s, [NotifyKeys({k})], t, [])
  {
    hide Step, Reaches, Listeners;
    NotifyKeysStep(s, {k}, k);
    assert {k} - {k} == {};
    NotifyKeysNone(t);
    Returning(t, NotifyKeys({}), t);
    Two(s, NotifyEach(Listeners(s, k)), t, NotifyKeys({}), t);
    Calling(s, NotifyKeys({k}), s, [NotifyEach(Listeners(s, k)), NotifyKeys({})], t);
  }

  lemma NotifiesNobody(s: Snap, ks: set<ServiceId>)
    requires forall k | k in ks :: ks == {k} && Listeners(s, k) == {}
    ensures Reaches(s, [NotifyKeys(ks)], s, [])
  {
    hide Reaches, Listeners;
    if ks == {} {
      Returning(s, NotifyKeys(ks), s);
    } else {
      var k :| k in ks;
      Returning(s, NotifyEach({}), s);
      NotifiesKey(s, k, s);
    }
  }

  /** A teardown, call by call. */
  lemma Finishes(s: Snap, id: FiberId, t: Snap, u: Snap, v: Snap)
    requires id in s.bodies && s.bodies[id].state == Unloading && s.bodies[id].remaining == 0
    requires Reaches(FinishStep(s, id).0, [Release(id, s.bodies[id].committed)], t, [])
    requires Reaches(t, [NotifyKeys(s.bodies[id].spec.provide)], u, []) && Reaches(u, [Reenter(id)], v, [])
    ensures Reaches(s, [MaybeFinish(id)], v, [])
  {
    hide Reaches;
    var b := s.bodies[id];
    Three(FinishStep(s, id).0, Release(id, b.committed), t, NotifyKeys(b.spec.provide), u, Reenter(id), v);
    Calling(s, Finish(id), FinishStep(s, id).0, [Release(id, b.committed), NotifyKeys(b.spec.provide), Reenter(id)], v);
    Calling(s, MaybeFinish(id), s, [Finish(id)], v);
  }

  /** Releasing one provider, and then the rest. */
  lemma Releases(s: Snap, id: FiberId, view: map<ServiceId, FiberId>, k: ServiceId, t: Snap, u: Snap)
    requires IsFirst(view.Keys, k) && view[k] in s.bodies && s.bodies[view[k]].remaining > 0
    requires Reaches(ReleaseStep(s, id, view[k]).0, [MaybeFinish(view[k])], t, []) && Reaches(t, [Release(id, view - {k})], u, [])
    ensures Reaches(s, [Release(id, view)], u, [])
  {
    hide Step, Reaches;
    var v := ReleaseStep(s, id, view[k]).0;
    ReleaseStepAt(s, id, view, k);
    Two(v, MaybeFinish(view[k]), t, Release(id, view - {k}), u);
    assert [MaybeFinish(view[k])] + [Release(id, view - {k})] == [MaybeFinish(view[k]), Release(id, view - {k})];
    Calling(s, Release(id, view), v, [MaybeFinish(view[k]), Release(id, view - {k})], u);
  }

  lemma ReleasesNone(s: Snap, id: FiberId)
    ensures Reaches(s, [Release(id, map[])], s, [])
  {
    hide Reaches;
    Returning(s, Release(id, map[]), s);
  }

  /** Withdrawing an active fiber: its consumers first. */
  lemma Withdraws(s: Snap, id: FiberId, flag: bool, t: Snap, u: Snap)
    requires id in s.bodies && s.bodies[id].state == Active
    requires Reaches(UnloadStep(s, id, flag).0, [UnloadEach(s.bodies[id].consumers)], t, []) && Reaches(t, [MaybeFinish(id)], u, [])
    ensures Reaches(s, [Unload(id, flag)], u, [])
  {
    hide Reaches;
    var v := UnloadStep(s, id, flag).0;
    Two(v, UnloadEach(s.bodies[id].consumers), t, MaybeFinish(id), u);
    Calling(s, Unload(id, flag), v, [UnloadEach(s.bodies[id].consumers), MaybeFinish(id)], u);
  }

  // ---------------------------------------------------------------------------------------------
  // Mounting and waiting

  function On(c: Component, view: map<ServiceId, FiberId>, consumers: set<FiberId>): Body {
    Body(c, Active, false, false, 0, view, consumers, 0)
  }

  function Starting(c: Component, view: map<ServiceId, FiberId>, flag: int): Body {
    Body(c, Loading, false, false, flag, view, {}, 0)
  }

  function Going(c: Component, flag: int, view: map<ServiceId, FiberId>, consumers: set<FiberId>, remaining: nat): Body {
    Body(c, Unloading, false, false, flag, view, consumers, remaining)
  }

  function Off(c: Component, error: bool, flag: int): Body {
    Body(c, Inactive, false, error, flag, map[], {}, 0)
  }

  predicate Stage(s: Snap, bodies: map<FiberId, Body>, bonds: O.Bonds, work: seq<FiberId>) {
    s.bodies == bodies && s.bonds == bonds && s.work == work
  }

  predicate Unheard(s: Snap, c: Component) {
    forall k | k in c.provide :: c.provide == {k} && k !in c.Keys() && Listeners(s, k) == {}
  }

  /** The only pending apply publishes, and nobody declares what it provides. */
  lemma Drained(s: Snap, id: FiberId) returns (t: Snap)
    requires s.work == [id] && id in s.bodies && s.bodies[id].state == Loading && O.Live(s.bonds, s.bodies[id].committed)
    requires Unheard(s, s.bodies[id].spec)
    ensures Reaches(s, [Drain({})], t, [])
    ensures Stage(t, Enlisted(s.bodies, id), Bound(s.bonds, s.bodies[id].spec.provide, id), [])
  {
    hide Reaches;
    var c := s.bodies[id].spec;
    t := NextStep(s, false).0;
    forall k | k in c.provide ensures Listeners(t, k) == {} {
      assert Listeners(t, k) == Listeners(s, k);
    }
    NotifiesNobody(t, c.provide);
    Calling(s, Next(false), t, [NotifyKeys(c.provide)], t);
    Returning(t, Drain({}), t);
    Two(s, Next(false), t, Drain({}), t);
    Calling(s, Drain({}), s, [Next(false), Drain({})], t);
  }

  /** A component whose dependencies are there is mounted, and starts to load. */
  lemma Loads(s: Snap, id: FiberId, c: Component) returns (t: Snap)
    requires id !in s.bodies && Met(s.bonds, id, c)
    ensures Reaches(s, [Install(id, c)], t, [])
    ensures Stage(t, s.bodies[id := Starting(c, Offered(s.bonds, id, c), 0)], s.bonds, s.work + [id])
  {
    hide Reaches;
    var v := With(s, id, FreshBody(c));
    t := EvalStep(v, id).0;
    Returning(v, Eval(id), t);
    Calling(s, Install(id, c), v, [Eval(id)], t);
    assert t.bodies == s.bodies[id := Starting(c, Offered(s.bonds, id, c), 0)];
  }

  /** With nothing else pending, it publishes. */
  lemma ComesUp(s: Snap, id: FiberId, c: Component) returns (t: Snap)
    requires s.work == [] && id !in s.bodies && Met(s.bonds, id, c) && Unheard(s, c)
    ensures Reaches(s, [Install(id, c), Drain({})], t, [])
    ensures Stage(t, Enlisted(s.bodies[id := Starting(c, Offered(s.bonds, id, c), 0)], id), Bound(s.bonds, c.provide, id), [])
  {
    hide Reaches;
    var w := Loads(s, id, c);
    forall k | k in c.provide ensures Listeners(w, k) == {} {
      assert Listeners(w, k) == Listeners(s, k);
    }
    t := Drained(w, id);
    Two(s, Install(id, c), w, Drain({}), t);
  }

  // ---------------------------------------------------------------------------------------------
  // A leaf is diverted after it has already reloaded

  function Middle(a: ServiceId, b: ServiceId): Component {
    Component([Dependency(a, true)], {b})
  }

  function Watcher(a: ServiceId, b: ServiceId): Component {
    Component([Dependency(a, false), Dependency(b, false)], {})
  }

  function Trio(r: Body, m: Body, l: Body): map<FiberId, Body> {
    map[1 := r, 2 := m, 3 := l]
  }

  /** All three are up, the last on both keys. */
  function TrioUp(a: ServiceId, b: ServiceId): map<FiberId, Body> {
    Trio(On(Source(a), map[], {2, 3}), On(Middle(a, b), map[a := 1], {3}), On(Watcher(a, b), map[a := 1, b := 2], {}))
  }

  function TwoBonds(a: ServiceId, b: ServiceId, retiringA: bool, retiringB: bool): O.Bonds {
    map[a := O.Bond(1, retiringA), b := O.Bond(2, retiringB)]
  }

  lemma Declared(a: ServiceId, b: ServiceId)
    ensures Source(a).Keys() == {} == Source(a).RequiredKeys()
    ensures Middle(a, b).Keys() == {a} == Middle(a, b).RequiredKeys()
    ensures Watcher(a, b).Keys() == {a, b} && Watcher(a, b).RequiredKeys() == {}
  {
    assert Middle(a, b).inject[0].key == a;
    assert Watcher(a, b).inject[0].key == a && Watcher(a, b).inject[1].key == b;
  }

  /** What is left when everybody has fallen. */
  lemma RootNotifies(a: ServiceId, b: ServiceId, s: Snap) returns (t: Snap)
    requires a != b
    requires Stage(s, Trio(Off(Source(a), false, -1), Off(Middle(a, b), false, 1), Off(Watcher(a, b), false, 1)), map[], [])
    ensures Reaches(s, [NotifyKeys({a})], t, [])
    ensures Stage(t, Trio(Off(Source(a), false, -1), Off(Middle(a, b), true, 1), Starting(Watcher(a, b), map[], 1)), map[], [3])
  {
    hide Reaches;
    Declared(a, b);
    var v := EvalStep(s, 2).0;
    t := EvalStep(v, 3).0;
    Returning(s, Eval(2), v);
    Returning(v, Eval(3), t);
    NotifiesLast(v, 3, t);
    assert {2, 3} - {2} == {3} && Listeners(s, a) == {2, 3};
    NotifiesNext(s, {2, 3}, 2, v, t);
    NotifiesKey(s, a, t);
  }

  lemma RootFinishes(a: ServiceId, b: ServiceId, s: Snap) returns (t: Snap)
    requires a != b
    requires Stage(s, Trio(Going(Source(a), -1, map[], {}, 0), Off(Middle(a, b), false, 1), Off(Watcher(a, b), false, 1)),
                   map[a := O.Bond(1, true)], [])
    ensures Reaches(s, [MaybeFinish(1)], t, [])
    ensures Stage(t, Trio(Off(Source(a), false, -1), Off(Middle(a, b), true, 1), Starting(Watcher(a, b), map[], 1)), map[], [3])
  {
    hide Reaches;
    var v := FinishStep(s, 1).0;
    ReleasesNone(v, 1);
    t := RootNotifies(a, b, v);
    Returning(t, Reenter(1), t);
    Finishes(s, 1, v, t, t);
  }

  lemma MiddleReleases(a: ServiceId, b: ServiceId, s: Snap) returns (t: Snap)
    requires a != b
    requires Stage(s, Trio(Going(Source(a), -1, map[], {2}, 1), Off(Middle(a, b), false, 1), Off(Watcher(a, b), false, 1)),
                   map[a := O.Bond(1, true)], [])
    ensures Reaches(s, [Release(2, map[a := 1])], t, [])
    ensures Stage(t, Trio(Off(Source(a), false, -1), Off(Middle(a, b), true, 1), Starting(Watcher(a, b), map[], 1)), map[], [3])
  {
    hide Reaches;
    var view := map[a := 1];
    assert {2} - {2} == {};
    t := RootFinishes(a, b, ReleaseStep(s, 2, 1).0);
    ReleasesNone(t, 2);
    assert IsFirst(view.Keys, a) && view - {a} == map[];
    Releases(s, 2, view, a, t, t);
  }

  /** Too late for the watcher, which is loading, and in vain for the middle one itself. */
  lemma MiddleReturns(a: ServiceId, b: ServiceId, s: Snap) returns (t: Snap)
    requires a != b
    requires Stage(s, Trio(Off(Source(a), false, -1), Off(Middle(a, b), true, 1), Starting(Watcher(a, b), map[], 1)), map[], [3])
    ensures Reaches(s, [NotifyKeys({b})], s, []) && Reaches(s, [Reenter(2)], t, [])
    ensures Stage(t, Trio(Off(Source(a), false, -1), Off(Middle(a, b), true, 0), Starting(Watcher(a, b), map[], 1)), map[], [3])
  {
    hide Reaches;
    Declared(a, b);
    Returning(s, Eval(3), s);
    NotifiesLast(s, 3, s);
    assert Listeners(s, b) == {3};
    NotifiesKey(s, b, s);
    t := With(s, 2, Off(Middle(a, b), true, 0));
    assert EvalStep(t, 2).0.bodies == t.bodies;
    Returning(t, Eval(2), t);
    Calling(s, Reenter(2), t, [Eval(2)], t);
  }

  lemma MiddleFinishes(a: ServiceId, b: ServiceId, s: Snap) returns (t: Snap)
    requires a != b
    requires Stage(s, Trio(Going(Source(a), -1, map[], {2}, 1), Going(Middle(a, b), 1, map[a := 1], {}, 0), Off(Watcher(a, b), false, 1)),
                   TwoBonds(a, b, true, true), [])
    ensures Reaches(s, [MaybeFinish(2)], t, [])
    ensures Stage(t, Trio(Off(Source(a), false, -1), Off(Middle(a, b), true, 0), Starting(Watcher(a, b), map[], 1)), map[], [3])
  {
    hide Reaches;
    var v := FinishStep(s, 2).0;
    assert v.bonds == map[a := O.Bond(1, true)];
    var w := MiddleReleases(a, b, v);
    t := MiddleReturns(a, b, w);
    Finishes(s, 2, w, w, t);
  }

  lemma WatcherReleases(a: ServiceId, b: ServiceId, s: Snap) returns (t: Snap)
    requires KeyLess(a, b)
    requires Stage(s, Trio(Going(Source(a), -1, map[], {2, 3}, 2), Going(Middle(a, b), 1, map[a := 1], {3}, 1),
                           Off(Watcher(a, b), false, 1)),
                   
                   TwoBonds(a, b, true, true), [])
    ensures Reaches(s, [Release(3, map[a := 1, b := 2])], t, [])
    ensures Stage(t, Trio(Off(Source(a), false, -1), Off(Middle(a, b), true, 0), Starting(Watcher(a, b), map[], 1)), map[], [3])
  {
    hide Reaches;
    KeysCompare(a, b);
    var v := ReleaseStep(s, 3, 1).0;
    Returning(v, MaybeFinish(1), v);
    var w := ReleaseStep(v, 3, 2).0;
    assert {2, 3} - {3} == {2} && {3} - {3} == {};
    t := MiddleFinishes(a, b, w);
    ReleasesNone(t, 3);
    var view, rest := map[a := 1, b := 2], map[b := 2];
    assert IsFirst(rest.Keys, b) && rest - {b} == map[];
    Releases(v, 3, rest, b, t, t);
    assert IsFirst(view.Keys, a) && view - {a} == rest;
    Releases(s, 3, view, a, v, t);
  }

  lemma WatcherFinishes(a: ServiceId, b: ServiceId, s: Snap) returns (t: Snap)
    requires KeyLess(a, b)
    requires Stage(s, Trio(Going(Source(a), -1, map[], {2, 3}, 2), Going(Middle(a, b), 1, map[a := 1], {3}, 1),
                           Going(Watcher(a, b), 1, map[a := 1, b := 2], {}, 0)),
                   TwoBonds(a, b, true, true), [])
    ensures Reaches(s, [MaybeFinish(3)], t, [])
    ensures Stage(t, Trio(Off(Source(a), false, -1), Off(Middle(a, b), true, 0), Starting(Watcher(a, b), map[], 0)), map[], [3])
  {
    hide Reaches;
    var v := FinishStep(s, 3).0;
    assert v.bonds == s.bonds;
    var w := WatcherReleases(a, b, v);
    NotifiesNobody(w, {});
    t := With(w, 3, Starting(Watcher(a, b), map[], 0));
    Returning(t, Eval(3), t);
    Calling(w, Reenter(3), t, [Eval(3)], t);
    Finishes(s, 3, w, w, t);
  }

  lemma WatcherWithdraws(a: ServiceId, b: ServiceId, s: Snap) returns (t: Snap)
    requires KeyLess(a, b)
    requires Stage(s, Trio(Going(Source(a), -1, map[], {2, 3}, 2), Going(Middle(a, b), 1, map[a := 1], {3}, 1),
                           On(Watcher(a, b), map[a := 1, b := 2], {})), TwoBonds(a, b, true, true), [])
    ensures Reaches(s, [Unload(3, true)], t, [])
    ensures Stage(t, Trio(Off(Source(a), false, -1), Off(Middle(a, b), true, 0), Starting(Watcher(a, b), map[], 0)), map[], [3])
  {
    hide Reaches;
    assert Holding(s, 3) == {};
    var v := UnloadStep(s, 3, true).0;
    assert v.bonds == s.bonds;
    t := WatcherFinishes(a, b, v);
    UnloadsNone(v);
    Withdraws(s, 3, true, v, t);
  }

  /** The watcher goes down with the middle one and loads again at once. */
  lemma MiddleWithdraws(a: ServiceId, b: ServiceId, s: Snap) returns (t: Snap)
    requires KeyLess(a, b)
    requires Stage(s, Trio(Going(Source(a), -1, map[], {2, 3}, 2), On(Middle(a, b), map[a := 1], {3}),
                           On(Watcher(a, b), map[a := 1, b := 2], {})),
                   
                   TwoBonds(a, b, true, false), [])
    ensures Reaches(s, [Unload(2, true)], t, [])
    ensures Stage(t, Trio(Off(Source(a), false, -1), Off(Middle(a, b), true, 0), Starting(Watcher(a, b), map[], 0)), map[], [3])
  {
    hide Reaches;
    KeysCompare(a, b);
    assert Holding(s, 2) == {3};
    var v := UnloadStep(s, 2, true).0;
    assert Stage(v, Trio(Going(Source(a), -1, map[], {2, 3}, 2), Going(Middle(a, b), 1, map[a := 1], {3}, 1),
                         On(Watcher(a, b), map[a := 1, b := 2], {})), TwoBonds(a, b, true, true), []);
    t := WatcherWithdraws(a, b, v);
    UnloadsLast(v, 3, t);
    Returning(t, MaybeFinish(2), t);
    Withdraws(s, 2, true, t, t);
  }

  /** The loop over the consumers of the first one, copied before, then diverts the watcher. */
  lemma ConsumersWithdraw(a: ServiceId, b: ServiceId, s: Snap) returns (t: Snap)
    requires KeyLess(a, b)
    requires Stage(s, Trio(Going(Source(a), -1, map[], {2, 3}, 2), On(Middle(a, b), map[a := 1], {3}),
                           On(Watcher(a, b), map[a := 1, b := 2], {})),
                   
                   TwoBonds(a, b, true, false), [])
    ensures Reaches(s, [UnloadEach({2, 3})], t, [])
    ensures Stage(t, Trio(Off(Source(a), false, -1), Off(Middle(a, b), true, 0), Going(Watcher(a, b), 1, map[], {}, 0)), map[], [3])
  {
    hide Reaches;
    var v := MiddleWithdraws(a, b, s);
    t := UnloadStep(v, 3, true).0;
    Returning(v, Unload(3, true), t);
    UnloadsLast(v, 3, t);
    assert {2, 3} - {2} == {3};
    UnloadsNext(s, {2, 3}, 2, v, t);
  }

  lemma RootUnloads(a: ServiceId, b: ServiceId, s: Snap) returns (t: Snap)
    requires KeyLess(a, b)
    requires Stage(s, Trio(On(Source(a), map[], {2, 3}).(reactivate := -1), On(Middle(a, b), map[a := 1], {3}),
                           On(Watcher(a, b), map[a := 1, b := 2], {})),
                   
                   TwoBonds(a, b, false, false), [])
    ensures Reaches(s, [Unload(1, false)], t, [])
    ensures Stage(t, Trio(Off(Source(a), false, -1), Off(Middle(a, b), true, 0), Going(Watcher(a, b), 1, map[], {}, 0)), map[], [3])
  {
    hide Reaches;
    KeysCompare(a, b);
    assert Holding(s, 1) == {2, 3};
    var v := UnloadStep(s, 1, false).0;
    assert v.bonds == TwoBonds(a, b, true, false);
    t := ConsumersWithdraw(a, b, v);
    Returning(t, MaybeFinish(1), t);
    Withdraws(s, 1, false, t, t);
  }

  lemma RootRetires(a: ServiceId, b: ServiceId, s: Snap) returns (t: Snap)
    requires KeyLess(a, b)
    requires Stage(s, TrioUp(a, b),
                   TwoBonds(a, b, false, false), [])
    ensures Reaches(s, [Retire(1)], t, [])
    ensures Stage(t, Trio(Off(Source(a), false, -1), Off(Middle(a, b), true, 0), Going(Watcher(a, b), 1, map[], {}, 0)), map[], [3])
  {
    hide Reaches;
    var u := With(s, 1, s.bodies[1].(reactivate := -1));
    t := RootUnloads(a, b, u);
    Calling(s, Retire(1), u, [Unload(1, false)], t);
  }

  lemma SourceUp(a: ServiceId) returns (t: Snap)
    ensures Reaches(EMPTY, [Install(1, Source(a)), Drain({})], t, [])
    ensures Stage(t, map[1 := On(Source(a), map[], {})], map[a := O.Bond(1, false)], [])
  {
    hide Reaches;
    assert Source(a).Keys() == {} == Source(a).RequiredKeys();
    assert Offered(map[], 1, Source(a)) == map[];
    t := ComesUp(EMPTY, 1, Source(a));
    assert t.bonds == map[a := O.Bond(1, false)];
  }

  lemma MiddleUp(a: ServiceId, b: ServiceId, s: Snap) returns (t: Snap)
    requires a != b && Stage(s, map[1 := On(Source(a), map[], {})], map[a := O.Bond(1, false)], [])
    ensures Reaches(s, [Install(2, Middle(a, b)), Drain({})], t, [])
    ensures Stage(t, map[1 := On(Source(a), map[], {2}), 2 := On(Middle(a, b), map[a := 1], {})], TwoBonds(a, b, false, false), [])
  {
    hide Reaches;
    Declared(a, b);
    var view := map[a := 1];
    assert Offered(s.bonds, 2, Middle(a, b)) == view && view[a] == 1 && {} + {2} == {2};
    t := ComesUp(s, 2, Middle(a, b));
    assert t.bonds == TwoBonds(a, b, false, false);
  }

  lemma WatcherUp(a: ServiceId, b: ServiceId, s: Snap) returns (t: Snap)
    requires a != b
    requires Stage(s, map[1 := On(Source(a), map[], {2}), 2 := On(Middle(a, b), map[a := 1], {})], TwoBonds(a, b, false, false), [])
    ensures Reaches(s, [Install(3, Watcher(a, b)), Drain({})], t, [])
    ensures Stage(t, TrioUp(a, b),
                  TwoBonds(a, b, false, false), [])
  {
    hide Reaches, Enlisted;
    Declared(a, b);
    assert Offered(s.bonds, 3, Watcher(a, b)) == map[a := 1, b := 2];
    TrioEnlisted(a, b, s.bodies[3 := Starting(Watcher(a, b), map[a := 1, b := 2], 0)]);
    t := ComesUp(s, 3, Watcher(a, b));
    assert Bound(s.bonds, {}, 3) == s.bonds;
  }

  lemma TrioEnlisted(a: ServiceId, b: ServiceId, bodies: map<FiberId, Body>)
    requires a != b
    requires bodies == Trio(On(Source(a), map[], {2}), On(Middle(a, b), map[a := 1], {}), Starting(Watcher(a, b), map[a := 1, b := 2], 0))
    ensures Enlisted(bodies, 3) == TrioUp(a, b)
  {
    var view := map[a := 1, b := 2];
    assert view[a] == 1 && view[b] == 2 && view.Values == {1, 2};
    assert {2} + {3} == {2, 3} && {} + {3} == {3};
  }

  /** The diverted apply returns, and the watcher is down for good though it requires nothing. */
  lemma WatcherStranded(a: ServiceId, b: ServiceId, s: Snap) returns (t: Snap)
    requires KeyLess(a, b)
    requires Stage(s, TrioUp(a, b),
                   TwoBonds(a, b, false, false), [])
    ensures Reaches(s, [Retire(1), Drain({}), Erase(1)], t, [])
    ensures Stage(t, map[2 := Off(Middle(a, b), true, 0), 3 := Off(Watcher(a, b), true, 1)], map[], [])
  {
    hide Reaches;
    var v := RootRetires(a, b, s);
    var w := NextStep(v, false).0;
    Returning(v, Next(false), w);
    Returning(w, Drain({}), w);
    Two(v, Next(false), w, Drain({}), w);
    Calling(v, Drain({}), v, [Next(false), Drain({})], w);
    t := w.(bodies := w.bodies - {1});
    Returning(w, Erase(1), t);
    Three(s, Retire(1), v, Drain({}), w, Erase(1), t);
  }

  // ---------------------------------------------------------------------------------------------
  // A fiber finishes while it still lists a consumer

  /** Running `f` at `s` comes to running `g` at `t`. */
  ghost predicate Passes(s: Snap, f: Frame, t: Snap, g: Frame) {
    exists rest :: Reaches(s, [f], t, [g] + rest)
  }

  lemma Enters(s: Snap, f: Frame, v: Snap, fs: Todo, t: Snap, g: Frame)
    requires Step(s, f) == (v, fs) && fs != [] && Passes(v, fs[0], t, g)
    ensures Passes(s, f, t, g)
  {
    hide Step, Reaches;
    var x, more := fs[0], fs[1..];
    var rest :| Reaches(v, [x], t, [g] + rest);
    OneStep(s, f);
    assert [x] + more == fs;
    Beside(v, [x], t, [g] + rest, more);
    Further(s, [f], v, fs, t, [g] + rest + more);
    assert [g] + rest + more == [g] + (rest + more);
  }

  lemma EntersNext(s: Snap, f: Frame, v: Snap, fs: Todo, w: Snap, t: Snap, g: Frame)
    requires Step(s, f) == (v, fs) && |fs| > 1 && Reaches(v, [fs[0]], w, []) && Passes(w, fs[1], t, g)
    ensures Passes(s, f, t, g)
  {
    hide Step, Reaches;
    var x, y, more := fs[0], fs[1], fs[2..];
    var rest :| Reaches(w, [y], t, [g] + rest);
    OneStep(s, f);
    Then(v, [x], w, [y], t, [g] + rest);
    assert [x] + [y] + more == fs;
    Beside(v, [x] + [y], t, [g] + rest, more);
    Further(s, [f], v, fs, t, [g] + rest + more);
    assert [g] + rest + more == [g] + (rest + more);
  }

  /** It declares two optional dependencies and provides a key itself. */
  function Relay(a: ServiceId, b: ServiceId, c: ServiceId): Component {
    Component([Dependency(a, false), Dependency(b, false)], {c})
  }

  function Pair(b: ServiceId, c: ServiceId): Component {
    Component([Dependency(b, true), Dependency(c, true)], {})
  }

  lemma DeclaredToo(a: ServiceId, b: ServiceId, c: ServiceId)
    ensures Source(a).Keys() == {} == Source(a).RequiredKeys() && Source(b).Keys() == {} == Source(b).RequiredKeys()
    ensures Relay(a, b, c).Keys() == {a, b} && Relay(a, b, c).RequiredKeys() == {}
    ensures Pair(b, c).Keys() == {b, c} == Pair(b, c).RequiredKeys()
  {
    assert Relay(a, b, c).inject[0].key == a && Relay(a, b, c).inject[1].key == b;
    assert Pair(b, c).inject[0].key == b && Pair(b, c).inject[1].key == c;
  }

  function Quartet(p: Body, q: Body, r: Body, s: Body): map<FiberId, Body> {
    map[1 := p, 2 := q, 3 := r, 4 := s]
  }

  /** All four are up; the third missed both its keys. */
  function QuartetUp(a: ServiceId, b: ServiceId, c: ServiceId): map<FiberId, Body> {
    Quartet(On(Source(a), map[], {}), On(Source(b), map[], {4}), On(Relay(a, b, c), map[], {4}), On(Pair(b, c), map[b := 2, c := 3], {}))
  }

  function ThreeBonds(a: ServiceId, b: ServiceId, c: ServiceId, retiringB: bool): O.Bonds {
    map[a := O.Bond(1, false), b := O.Bond(2, retiringB), c := O.Bond(3, false)]
  }

  predicate Apart(a: ServiceId, b: ServiceId, c: ServiceId) {
    a != b && a != c && KeyLess(b, c)
  }

  /** The relay, which missed what was published while it loaded, is evaluated because one of its keys is
      gone, and withdraws although the consumer it lists has already finished. */
  lemma RelayWithdraws(a: ServiceId, b: ServiceId, c: ServiceId, s: Snap) returns (t: Snap)
    requires Apart(a, b, c)
    requires Stage(s, Quartet(On(Source(a), map[], {}), Off(Source(b), false, -1), On(Relay(a, b, c), map[], {4}),
                              Off(Pair(b, c), false, 1)),
                   
                   map[a := O.Bond(1, false), c := O.Bond(3, false)], [])
    ensures Passes(s, Eval(3), t, Finish(3)) && t.bodies == s.bodies[3 := Going(Relay(a, b, c), 1, map[], {4}, 0)]
  {
    hide Reaches, Passes;
    DeclaredToo(a, b, c);
    assert a in Offered(s.bonds, 3, Relay(a, b, c));
    assert Holding(s, 3) == {};
    t := UnloadStep(s, 3, true).0;
    assert UnloadStep(t, 4, true).0.bodies == t.bodies;
    Returning(t, Unload(4, true), t);
    UnloadsLast(t, 4, t);
    AboutToFinish(t, 3);
    EntersNext(s, Unload(3, true), t, [UnloadEach({4}), MaybeFinish(3)], t, t, Finish(3));
    Enters(s, Eval(3), s, [Unload(3, true)], t, Finish(3));
  }

  lemma AboutToFinish(s: Snap, id: FiberId)
    requires id in s.bodies && s.bodies[id].state == Unloading && s.bodies[id].remaining == 0
    ensures Passes(s, MaybeFinish(id), s, Finish(id))
  {
    hide Reaches;
    OneStep(s, MaybeFinish(id));
    assert [Finish(id)] == [Finish(id)] + [];
  }

  lemma SecondNotifies(a: ServiceId, b: ServiceId, c: ServiceId, s: Snap) returns (t: Snap)
    requires Apart(a, b, c)
    requires Stage(s, Quartet(On(Source(a), map[], {}), Off(Source(b), false, -1), On(Relay(a, b, c), map[], {4}),
                              Off(Pair(b, c), false, 1)),
                   
                   map[a := O.Bond(1, false), c := O.Bond(3, false)], [])
    ensures Passes(s, NotifyKeys({b}), t, Finish(3)) && t.bodies == s.bodies[3 := Going(Relay(a, b, c), 1, map[], {4}, 0)]
  {
    hide Reaches, Passes, Step;
    DeclaredToo(a, b, c);
    t := RelayWithdraws(a, b, c, s);
    assert Listeners(s, b) == {3, 4} && IsLeast({3, 4}, 3);
    NotifyEachStep(s, {3, 4}, 3);
    Enters(s, NotifyEach({3, 4}), s, [Eval(3), NotifyEach({3, 4} - {3})], t, Finish(3));
    NotifyKeysStep(s, {b}, b);
    Enters(s, NotifyKeys({b}), s, [NotifyEach({3, 4}), NotifyKeys({b} - {b})], t, Finish(3));
  }

  lemma SecondFinishes(a: ServiceId, b: ServiceId, c: ServiceId, s: Snap) returns (t: Snap)
    requires Apart(a, b, c)
    requires Stage(s, Quartet(On(Source(a), map[], {}), Going(Source(b), -1, map[], {}, 0), On(Relay(a, b, c), map[], {4}),
                              Off(Pair(b, c), false, 1)),
                   
                   ThreeBonds(a, b, c, true), [])
    ensures Passes(s, MaybeFinish(2), t, Finish(3))
    ensures t.bodies.Keys == {1, 2, 3, 4} && t.bodies[3] == Going(Relay(a, b, c), 1, map[], {4}, 0)
  {
    hide Reaches, Passes;
    KeysCompare(b, c);
    var v := FinishStep(s, 2).0;
    assert v.bonds == map[a := O.Bond(1, false), c := O.Bond(3, false)];
    t := SecondNotifies(a, b, c, v);
    ReleasesNone(v, 2);
    EntersNext(s, Finish(2), v, [Release(2, map[]), NotifyKeys({b}), Reenter(2)], v, t, Finish(3));
    Enters(s, MaybeFinish(2), s, [Finish(2)], t, Finish(3));
  }

  lemma PairReleases(a: ServiceId, b: ServiceId, c: ServiceId, s: Snap) returns (t: Snap)
    requires Apart(a, b, c)
    requires Stage(s, Quartet(On(Source(a), map[], {}), Going(Source(b), -1, map[], {4}, 1), On(Relay(a, b, c), map[], {4}),
                              Off(Pair(b, c), false, 1)),
                   
                   ThreeBonds(a, b, c, true), [])
    ensures Passes(s, Release(4, map[b := 2, c := 3]), t, Finish(3))
    ensures t.bodies.Keys == {1, 2, 3, 4} && t.bodies[3] == Going(Relay(a, b, c), 1, map[], {4}, 0)
  {
    hide Reaches, Passes;
    KeysCompare(b, c);
    var view := map[b := 2, c := 3];
    var w := ReleaseStep(s, 4, 2).0;
    assert {4} - {4} == {};
    t := SecondFinishes(a, b, c, w);
    assert IsFirst(view.Keys, b);
    ReleaseStepAt(s, 4, view, b);
    assert [MaybeFinish(2)] + [Release(4, view - {b})] == [MaybeFinish(2), Release(4, view - {b})];
    Enters(s, Release(4, view), w, [MaybeFinish(2), Release(4, view - {b})], t, Finish(3));
  }

  lemma PairUnloads(a: ServiceId, b: ServiceId, c: ServiceId, s: Snap) returns (t: Snap)
    requires Apart(a, b, c)
    requires Stage(s, Quartet(On(Source(a), map[], {}), Going(Source(b), -1, map[], {4}, 1), On(Relay(a, b, c), map[], {4}),
                              On(Pair(b, c), map[b := 2, c := 3], {})),
                   ThreeBonds(a, b, c, true), [])
    ensures Passes(s, Unload(4, true), t, Finish(3))
    ensures t.bodies.Keys == {1, 2, 3, 4} && t.bodies[3] == Going(Relay(a, b, c), 1, map[], {4}, 0)
  {
    hide Reaches, Passes;
    assert Holding(s, 4) == {};
    var v := UnloadStep(s, 4, true).0;
    var w := FinishStep(v, 4).0;
    assert v.bonds == s.bonds == w.bonds;
    t := PairReleases(a, b, c, w);
    Enters(v, Finish(4), w, [Release(4, map[b := 2, c := 3]), NotifyKeys({}), Reenter(4)], t, Finish(3));
    Enters(v, MaybeFinish(4), v, [Finish(4)], t, Finish(3));
    UnloadsNone(v);
    EntersNext(s, Unload(4, true), v, [UnloadEach({}), MaybeFinish(4)], v, t, Finish(3));
  }

  lemma SecondRetires(a: ServiceId, b: ServiceId, c: ServiceId, s: Snap) returns (t: Snap)
    requires Apart(a, b, c)
    requires Stage(s, QuartetUp(a, b, c),
                   ThreeBonds(a, b, c, false), [])
    ensures Passes(s, Retire(2), t, Finish(3)) && t.bodies.Keys == {1, 2, 3, 4} && t.bodies[3] == Going(Relay(a, b, c), 1, map[], {4}, 0)
  {
    hide Reaches, Passes;
    KeysCompare(b, c);
    var u := With(s, 2, s.bodies[2].(reactivate := -1));
    assert Holding(u, 2) == {4};
    var v := UnloadStep(u, 2, false).0;
    assert v.bonds == ThreeBonds(a, b, c, true);
    t := PairUnloads(a, b, c, v);
    assert IsLeast({4}, 4);
    UnloadEachStep(v, {4}, 4);
    Enters(v, UnloadEach({4}), v, [Unload(4, true), UnloadEach({4} - {4})], t, Finish(3));
    Enters(u, Unload(2, false), v, [UnloadEach({4}), MaybeFinish(2)], t, Finish(3));
    Enters(s, Retire(2), u, [Unload(2, false)], t, Finish(3));
  }

  /** A pending apply publishes, and the one listener, if any, is loading. */
  lemma Publishes(s: Snap, id: FiberId) returns (t: Snap)
    requires s.work != [] && s.work[0] == id && id in s.bodies && s.bodies[id].state == Loading && s.bodies[id].committed == map[]
    requires forall k | k in s.bodies[id].spec.provide ::
      s.bodies[id].spec.provide == {k} && k !in s.bodies[id].spec.Keys()
      && (Listeners(s, k) == {} || (Listeners(s, k) == {3} && s.bodies[3].state == Loading))
    ensures Reaches(s, [Next(false)], t, [])
    ensures Stage(t, s.bodies[id := s.bodies[id].(state := Active)], Bound(s.bonds, s.bodies[id].spec.provide, id), s.work[1..])
  {
    hide Reaches;
    var c := s.bodies[id].spec;
    t := NextStep(s, false).0;
    assert t.bodies == s.bodies[id := s.bodies[id].(state := Active)];
    if k :| k in c.provide && Listeners(s, k) == {3} {
      assert Listeners(t, k) == Listeners(s, k) && id != 3;
      Returning(t, Eval(3), t);
      NotifiesLast(t, 3, t);
      NotifiesKey(t, k, t);
    } else {
      assert forall k :: Listeners(t, k) == Listeners(s, k);
      NotifiesNobody(t, c.provide);
    }
    Calling(s, Next(false), t, [NotifyKeys(c.provide)], t);
  }

  lemma DrainsNext(s: Snap, t: Snap, u: Snap)
    requires s.work != [] && Reaches(s, [Next(false)], t, []) && Reaches(t, [Drain({})], u, [])
    ensures Reaches(s, [Drain({})], u, [])
  {
    hide Reaches;
    Two(s, Next(false), t, Drain({}), u);
    Calling(s, Drain({}), s, [Next(false), Drain({})], u);
  }

  function ThreeOps(a: ServiceId, b: ServiceId, c: ServiceId): Todo {
    [Install(1, Source(a))] + [Install(2, Source(b))] + [Install(3, Relay(a, b, c))]
  }

  /** The first three are mounted before any apply returns. */
  lemma ThreeLoad(a: ServiceId, b: ServiceId, c: ServiceId) returns (t: Snap)
    requires Apart(a, b, c)
    ensures Reaches(EMPTY, ThreeOps(a, b, c), t, [])
    ensures Stage(t, Trio(Starting(Source(a), map[], 0), Starting(Source(b), map[], 0), Starting(Relay(a, b, c), map[], 0)),
                  map[], [1, 2, 3])
  {
    hide Reaches;
    DeclaredToo(a, b, c);
    assert forall id, spec | spec in {Source(a), Source(b), Relay(a, b, c)} :: Offered(map[], id, spec) == map[];
    var u := Loads(EMPTY, 1, Source(a));
    var v := Loads(u, 2, Source(b));
    t := Loads(v, 3, Relay(a, b, c));
    Then(EMPTY, [Install(1, Source(a))], u, [Install(2, Source(b))], v, []);
    Then(EMPTY, [Install(1, Source(a))] + [Install(2, Source(b))], v, [Install(3, Relay(a, b, c))], t, []);
  }

  lemma RelayPublishes(a: ServiceId, b: ServiceId, c: ServiceId, s: Snap) returns (t: Snap)
    requires Apart(a, b, c)
    requires Stage(s, Trio(On(Source(a), map[], {}), On(Source(b), map[], {}), Starting(Relay(a, b, c), map[], 0)),
                   TwoBonds(a, b, false, false), [3])
    ensures Reaches(s, [Drain({})], t, [])
    ensures Stage(t, Trio(On(Source(a), map[], {}), On(Source(b), map[], {}), On(Relay(a, b, c), map[], {})),
                  ThreeBonds(a, b, c, false), [])
  {
    hide Reaches;
    DeclaredToo(a, b, c);
    KeysCompare(b, c);
    assert Listeners(s, c) == {};
    t := Publishes(s, 3);
    assert t.bonds == ThreeBonds(a, b, c, false);
    Returning(t, Drain({}), t);
    DrainsNext(s, t, t);
  }

  lemma SecondPublishes(a: ServiceId, b: ServiceId, c: ServiceId, s: Snap) returns (t: Snap)
    requires Apart(a, b, c)
    requires Stage(s, Trio(On(Source(a), map[], {}), Starting(Source(b), map[], 0), Starting(Relay(a, b, c), map[], 0)),
                   map[a := O.Bond(1, false)], [2, 3])
    ensures Reaches(s, [Drain({})], t, [])
    ensures Stage(t, Trio(On(Source(a), map[], {}), On(Source(b), map[], {}), On(Relay(a, b, c), map[], {})),
                  ThreeBonds(a, b, c, false), [])
  {
    hide Reaches;
    DeclaredToo(a, b, c);
    assert Listeners(s, b) == {3};
    var v := Publishes(s, 2);
    assert v.bonds == TwoBonds(a, b, false, false);
    t := RelayPublishes(a, b, c, v);
    DrainsNext(s, v, t);
  }

  /** Both sources publish while the relay is loading, so it publishes without them. */
  lemma ThreePublish(a: ServiceId, b: ServiceId, c: ServiceId, s: Snap) returns (t: Snap)
    requires Apart(a, b, c)
    requires Stage(s, Trio(Starting(Source(a), map[], 0), Starting(Source(b), map[], 0), Starting(Relay(a, b, c), map[], 0)),
                   map[], [1, 2, 3])
    ensures Reaches(s, [Drain({})], t, [])
    ensures Stage(t, Trio(On(Source(a), map[], {}), On(Source(b), map[], {}), On(Relay(a, b, c), map[], {})),
                  ThreeBonds(a, b, c, false), [])
  {
    hide Reaches;
    DeclaredToo(a, b, c);
    assert Listeners(s, a) == {3};
    var v := Publishes(s, 1);
    assert v.bonds == map[a := O.Bond(1, false)];
    t := SecondPublishes(a, b, c, v);
    DrainsNext(s, v, t);
  }

  lemma PairUp(a: ServiceId, b: ServiceId, c: ServiceId, s: Snap) returns (t: Snap)
    requires Apart(a, b, c)
    requires Stage(s, Trio(On(Source(a), map[], {}), On(Source(b), map[], {}), On(Relay(a, b, c), map[], {})),
                   ThreeBonds(a, b, c, false), [])
    ensures Reaches(s, [Install(4, Pair(b, c)), Drain({})], t, [])
    ensures Stage(t, QuartetUp(a, b, c),
                  ThreeBonds(a, b, c, false), [])
  {
    hide Reaches, Enlisted;
    DeclaredToo(a, b, c);
    KeysCompare(b, c);
    assert Offered(s.bonds, 4, Pair(b, c)) == map[b := 2, c := 3];
    QuartetEnlisted(a, b, c, s.bodies[4 := Starting(Pair(b, c), map[b := 2, c := 3], 0)]);
    t := ComesUp(s, 4, Pair(b, c));
    assert Bound(s.bonds, {}, 4) == s.bonds;
  }

  lemma QuartetEnlisted(a: ServiceId, b: ServiceId, c: ServiceId, bodies: map<FiberId, Body>)
    requires b != c
    requires bodies == Quartet(On(Source(a), map[], {}), On(Source(b), map[], {}), On(Relay(a, b, c), map[], {}),
                               Starting(Pair(b, c), map[b := 2, c := 3], 0))
    ensures Enlisted(bodies, 4) ==
      QuartetUp(a, b, c)
  {
    var view := map[b := 2, c := 3];
    assert view[b] == 2 && view[c] == 3 && view.Values == {2, 3};
    assert {} + {4} == {4};
  }

  function QuartetOps(a: ServiceId, b: ServiceId, c: ServiceId): Todo {
    ThreeOps(a, b, c) + [Drain({})] + [Install(4, Pair(b, c)), Drain({})]
  }

  /**
    An optional dependency of a component that provides something: four components, mounted so that
    nobody declares what a later one provides, and a retirement. The run comes to tearing down fiber 3
    while fiber 4 is among its consumers, where the engine asserts that it has none.
   */
  lemma FinishesWithConsumers(a: ServiceId, b: ServiceId, c: ServiceId) returns (t: Snap, rest: Todo)
    requires a != b && a != c && KeyLess(b, c)
    ensures Reaches(EMPTY, QuartetOps(a, b, c) + [Retire(2)], t, [Finish(3)] + rest)
    ensures t.bodies.Keys == {1, 2, 3, 4} && t.bodies[3].state == Unloading && t.bodies[3].consumers == {4}
    ensures
      var cs := [Source(a), Source(b), Relay(a, b, c), Pair(b, c)];
      forall i, j | 0 <= i < |cs| && 0 <= j < |cs| && cs[i].provide * cs[j].Keys() != {} :: i < j
  {
    hide Reaches;
    DeclaredToo(a, b, c);
    KeysCompare(b, c);
    var s := ThreeLoad(a, b, c);
    var u := ThreePublish(a, b, c, s);
    Then(EMPTY, ThreeOps(a, b, c), s, [Drain({})], u, []);
    var v := PairUp(a, b, c, u);
    Then(EMPTY, ThreeOps(a, b, c) + [Drain({})], u, [Install(4, Pair(b, c)), Drain({})], v, []);
    t := SecondRetires(a, b, c, v);
    rest :| Reaches(v, [Retire(2)], t, [Finish(3)] + rest);
    Then(EMPTY, QuartetOps(a, b, c), v, [Retire(2)], t, [Finish(3)] + rest);
  }
}
