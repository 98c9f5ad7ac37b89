/** The reference machine's moments as states of the frame machine, and what its steps are there. */
module OracleImage {
  import opened Oracle
  import opened OracleSteps
  import opened OracleHandlers
  import opened Basics
  import E = Fibers
  import F = Frames

  function StateOf(p: Phase): E.FiberState {
    match p case Inactive => E.Inactive case Loading => E.Loading case Active => E.Active case Unloading => E.Unloading
  }

  function BodyOf(parts: Parts, f: Fiber): F.Body
    requires f.part in parts
  {
    F.Body(parts[f.part].Spec(), StateOf(f.state), f.applyFailed, f.hasError, f.reactivate, f.committed, f.consumers, f.remaining)
  }

  function ImageOf(s: Moment, ms: seq<F.Mark>): F.Snap {
    F.Snap(map x | x in s.fibers && s.fibers[x].part in s.parts :: BodyOf(s.parts, s.fibers[x]), s.bonds, s.work, ms)
  }

  lemma Imaged(s: Moment, ms: seq<F.Mark>)
    requires Wired(s)
    ensures ImageOf(s, ms).bodies.Keys == s.fibers.Keys
    ensures forall x | x in s.fibers :: s.fibers[x].part in s.parts && Known(s, x) && s.fibers[x].part == s.made[x]
  {
    hide Sorted, FiberOk;
    forall x | x in s.fibers ensures s.fibers[x].part in s.parts && Known(s, x) && s.fibers[x].part == s.made[x] {
      KnownPart(s, x);
    }
  }

  lemma ImageAt(s: Moment, ms: seq<F.Mark>, x: FiberId, g: Fiber)
    requires Wired(s) && x in s.fibers && g.part == s.fibers[x].part
    ensures g.part in s.parts
    ensures ImageOf(s.(fibers := s.fibers[x := g]), ms) == F.With(ImageOf(s, ms), x, BodyOf(s.parts, g))
  {
    Imaged(s, ms);
  }

  // ---------------------------------------------------------------------------------------------
  // The steps

  lemma EvalImage(s: Moment, ms: seq<F.Mark>, x: FiberId)
    requires Wired(s) && x in s.fibers
    ensures Known(s, x)
    ensures
      var f, v := s.fibers[x], ImageOf(s, ms);
      F.Step(v, F.Eval(x)) ==
        if (f.state != Inactive && f.state != Active) || f.reactivate < 0 then (v, [])
        else if f.state == Inactive then
          (ImageOf(if Satisfiable(s.bonds, x, PartOf(s, x)) && !f.applyFailed then AfterStart(s, x)
                   else s.(fibers := s.fibers[x := f.(hasError := true)]), ms), [])
        else if Satisfiable(s.bonds, x, PartOf(s, x)) && Resolution(s.bonds, x, PartOf(s, x)) == f.committed then (v, [])
        else (v, [F.Unload(x, Satisfiable(s.bonds, x, PartOf(s, x)))])
  {
    hide Wired, Resolves, Sorted;
    Imaged(s, ms);
    var f := s.fibers[x];
    assert F.Met(s.bonds, x, PartOf(s, x).Spec()) == Satisfiable(s.bonds, x, PartOf(s, x));
    assert F.Offered(s.bonds, x, PartOf(s, x).Spec()) == Resolution(s.bonds, x, PartOf(s, x));
    ImageAt(s, ms, x, Started(f, Resolution(s.bonds, x, PartOf(s, x))));
    ImageAt(s, ms, x, f.(hasError := true));
  }

  lemma SameRetired(bs: Bonds, x: FiberId)
    ensures F.Retiring(bs, x) == RetireBonds(bs, x) && F.Unbound(bs, x) == Unbind(bs, x)
  {}

  /** What FinishStep does here. */
  lemma FinishImage(s: Moment, ms: seq<F.Mark>, x: FiberId)
    requires Wired(s) && x in s.fibers
    ensures Known(s, x)
    ensures F.Step(ImageOf(s, ms), F.Finish(x)) ==
      (ImageOf(AfterTeardown(s, x), ms + [F.Cleaned(x)]),
       [F.Release(x, s.fibers[x].committed), F.NotifyKeys(PartOf(s, x).Spec().provide), F.Reenter(x)])
  {
    hide Wired;
    Imaged(s, ms);
    SameRetired(s.bonds, x);
    ImageAt(s, ms, x, s.fibers[x].(state := Inactive, committed := map[]));
  }

  // ---------------------------------------------------------------------------------------------
  // The log and the registry

  function EntryOf(parts: Parts, made: map<FiberId, char>, m: F.Mark): seq<Entry> {
    if m.id !in made || made[m.id] !in parts then []
    else
      var part := parts[made[m.id]];
      match m
      case Ran(_) => [Applied(part.name)]
      case Cleaned(_) => if part.fails then [] else [Cleaned(part.name)]
  }

  /** The log as the components write it: a failing one leaves no cleanup behind. */
  function Render(parts: Parts, made: map<FiberId, char>, ms: seq<F.Mark>): seq<Entry> {
    if ms == [] then [] else Render(parts, made, ms[..|ms| - 1]) + EntryOf(parts, made, ms[|ms| - 1])
  }

  lemma RenderSnoc(parts: Parts, made: map<FiberId, char>, ms: seq<F.Mark>, m: F.Mark)
    ensures Render(parts, made, ms + [m]) == Render(parts, made, ms) + EntryOf(parts, made, m)
  {
    assert (ms + [m])[..|ms|] == ms;
  }

  /** A mount gives no mark another name. */
  lemma {:induction false} RenderMore(parts: Parts, made: map<FiberId, char>, ms: seq<F.Mark>, id: FiberId, part: char)
    requires forall i | 0 <= i < |ms| :: ms[i].id != id
    ensures Render(parts, made[id := part], ms) == Render(parts, made, ms)
  {
    if ms != [] {
      RenderMore(parts, made, ms[..|ms| - 1], id, part);
    }
  }

  predicate Ascending(ids: seq<FiberId>) {
    forall i, j | 0 <= i < j < |ids| :: ids[i] < ids[j]
  }

  function Members(ids: seq<FiberId>): set<FiberId> {
    set x | x in ids
  }

  function Listed(index: map<Key, seq<FiberId>>, k: Key): seq<FiberId> {
    if k in index then index[k] else []
  }

  /** The registry lists, for every key, the installed fibers declaring it, in mount order. */
  ghost predicate Listing(index: map<Key, seq<FiberId>>, parts: Parts, made: map<FiberId, char>, ids: set<FiberId>) {
    forall k :: ListedRight(index, parts, made, ids, k)
  }

  ghost predicate ListedRight(index: map<Key, seq<FiberId>>, parts: Parts, made: map<FiberId, char>, ids: set<FiberId>, k: Key) {
    && Ascending(Listed(index, k))
    && (forall x :: x in Listed(index, k) <==> x in ids && x in made && made[x] in parts && k in parts[made[x]].Keys())
  }

  /** What the comparison with the engine asks of a component: at most one provided key, and no key
      declared twice. */
  predicate Plain(p: Part) {
    |p.provide| <= 1 && forall i, j | 0 <= i < j < |p.inject| :: p.inject[i].key != p.inject[j].key
  }

  lemma ListenersListed(s: Moment, ms: seq<F.Mark>, index: map<Key, seq<FiberId>>, k: Key)
    requires Wired(s) && Listing(index, s.parts, s.made, s.fibers.Keys)
    ensures Ascending(Listed(index, k)) && Members(Listed(index, k)) == F.Listeners(ImageOf(s, ms), k)
    ensures forall x | x in Listed(index, k) :: x in s.fibers
  {
    Imaged(s, ms);
    assert ListedRight(index, s.parts, s.made, s.fibers.Keys, k);
    forall x ensures x in Members(Listed(index, k)) <==> x in F.Listeners(ImageOf(s, ms), k) {
      if x in s.fibers {
        assert ImageOf(s, ms).bodies[x].spec == s.parts[s.made[x]].Spec();
      }
    }
  }

  /** In mount order the next listener is the lowest of the rest. */
  lemma NextListener(ids: seq<FiberId>, i: nat)
    requires Ascending(ids) && i < |ids|
    ensures Members(ids[i..]) != {} && F.Lowest(Members(ids[i..])) == ids[i]
    ensures Members(ids[i..]) - {ids[i]} == Members(ids[i + 1..])
  {
    assert ids[i..][0] == ids[i] && ids[i] in Members(ids[i..]);
    forall x | x in Members(ids[i..]) ensures ids[i] <= x {
      var j :| 0 <= j < |ids[i..]| && ids[i..][j] == x;
      assert ids[i + j] == x;
    }
    forall y ensures y in ids[i..] && y != ids[i] <==> y in ids[i + 1..] {
      if y in ids[i + 1..] {
        var j :| 0 <= j < |ids[i + 1..]| && ids[i + 1..][j] == y;
        assert ids[i..][j + 1] == y && ids[i + 1 + j] == y;
      }
      if y in ids[i..] && y != ids[i] {
        var j :| 0 <= j < |ids[i..]| && ids[i..][j] == y;
        assert ids[i + 1..][j - 1] == y;
      }
    }
  }

  /** The keys from a position of a provision list on. */
  function KeysFrom(provide: seq<Key>, i: nat): set<Key>
    requires i <= |provide|
  {
    set k | k in provide[i..]
  }

  // ---------------------------------------------------------------------------------------------
  // Unloading

  lemma RaiseImage(s: Moment, ms: seq<F.Mark>, x: FiberId, flag: bool)
    requires Wired(s) && x in s.fibers
    ensures F.Comes(ImageOf(s, ms), [F.Unload(x, flag)],
                    ImageOf(s.(fibers := s.fibers[x := Raised(s.fibers[x], flag)]), ms), [F.Unload(x, false)])
  {
    hide Wired, F.Comes, F.Step;
    Imaged(s, ms);
    ImageAt(s, ms, x, Raised(s.fibers[x], flag));
    F.RaisedFirst(ImageOf(s, ms), x, flag);
    F.Alike(ImageOf(s, ms), F.Unload(x, flag), ImageOf(s.(fibers := s.fibers[x := Raised(s.fibers[x], flag)]), ms), F.Unload(x, false));
  }

  lemma DivertImage(s: Moment, ms: seq<F.Mark>, x: FiberId)
    requires Wired(s) && x in s.fibers && s.fibers[x].state != Active
    ensures F.Step(ImageOf(s, ms), F.Unload(x, false)) == (ImageOf(s.(fibers := s.fibers[x := Diverted(s.fibers[x])]), ms), [])
  {
    hide Wired;
    Imaged(s, ms);
    ImageAt(s, ms, x, Diverted(s.fibers[x]));
  }

  lemma FlipImage(s: Moment, ms: seq<F.Mark>, x: FiberId)
    requires Wired(s) && x in s.fibers && s.fibers[x].state == Active
    ensures
      var f := s.fibers[x];
      F.Step(ImageOf(s, ms), F.Unload(x, false)) ==
        (ImageOf(s.(fibers := s.fibers[x := f.(state := Unloading, remaining := f.remaining + |Guards(s.fibers, f.consumers)|)],
                    bonds := RetireBonds(s.bonds, x)), ms),
         [F.UnloadEach(f.consumers), F.MaybeFinish(x)])
  {
    hide Wired;
    var f := s.fibers[x];
    Imaged(s, ms);
    SameRetired(s.bonds, x);
    assert F.Holding(ImageOf(s, ms), x) == Guards(s.fibers, f.consumers);
    ImageAt(s, ms, x, f.(state := Unloading, remaining := f.remaining + |Guards(s.fibers, f.consumers)|));
  }

  lemma GoneUnload(s: Moment, ms: seq<F.Mark>, x: FiberId, flag: bool)
    requires x !in s.fibers
    ensures F.Step(ImageOf(s, ms), F.Unload(x, flag)) == (ImageOf(s, ms), [])
  {}

  lemma MaybeFinishImage(s: Moment, ms: seq<F.Mark>, x: FiberId)
    requires Wired(s) && x in s.fibers
    ensures F.Step(ImageOf(s, ms), F.MaybeFinish(x)) ==
      (ImageOf(s, ms), if s.fibers[x].state == Unloading && s.fibers[x].remaining == 0 then [F.Finish(x)] else [])
  {
    hide Wired;
    Imaged(s, ms);
  }

  lemma ReenterImage(s: Moment, ms: seq<F.Mark>, x: FiberId)
    requires Wired(s) && x in s.fibers
    ensures F.Step(ImageOf(s, ms), F.Reenter(x)) ==
      if s.fibers[x].reactivate > 0 then (ImageOf(s.(fibers := s.fibers[x := s.fibers[x].(reactivate := 0)]), ms), [F.Eval(x)])
      else (ImageOf(s, ms), [])
  {
    hide Wired;
    Imaged(s, ms);
    ImageAt(s, ms, x, s.fibers[x].(reactivate := 0));
  }

  // ---------------------------------------------------------------------------------------------
  // Releasing and notifying

  lemma GoneRelease(s: Moment, ms: seq<F.Mark>, id: FiberId, view: map<Key, FiberId>, k: Key)
    requires F.IsFirst(view.Keys, k) && k in view && view[k] !in s.fibers
    ensures F.Comes(ImageOf(s, ms), [F.Release(id, view)], ImageOf(s, ms), [F.Release(id, view - {k})])
  {
    hide F.Step, F.Comes;
    var v := ImageOf(s, ms);
    F.ReleaseStepAt(v, id, view, k);
    F.Enter(v, F.Release(id, view));
    assert [] + [F.Release(id, view - {k})] == [F.Release(id, view - {k})];
  }

  lemma ReleaseImage(s: Moment, ms: seq<F.Mark>, id: FiberId, view: map<Key, FiberId>, k: Key)
    requires Wired(s) && F.IsFirst(view.Keys, k) && k in view && view[k] in s.fibers
    ensures
      var p := view[k];
      var g := s.fibers[p].(consumers := s.fibers[p].consumers - {id});
      F.Step(ImageOf(s, ms), F.Release(id, view)) ==
        if s.fibers[p].remaining > 0 then
          (ImageOf(s.(fibers := s.fibers[p := g.(remaining := s.fibers[p].remaining - 1)]), ms),
           [F.MaybeFinish(p), F.Release(id, view - {k})])
        else (ImageOf(s.(fibers := s.fibers[p := g]), ms), [F.Release(id, view - {k})])
  {
    hide Wired, F.Step, F.IsFirst;
    var p := view[k];
    var g := s.fibers[p].(consumers := s.fibers[p].consumers - {id});
    Imaged(s, ms);
    F.ReleaseStepAt(ImageOf(s, ms), id, view, k);
    ImageAt(s, ms, p, g);
    if s.fibers[p].remaining > 0 {
      ImageAt(s, ms, p, g.(remaining := s.fibers[p].remaining - 1));
    }
    assert [] + [F.Release(id, view - {k})] == [F.Release(id, view - {k})];
    assert [F.MaybeFinish(p)] + [F.Release(id, view - {k})] == [F.MaybeFinish(p), F.Release(id, view - {k})];
  }

  lemma NotifyKeysStep(v: F.Snap, provide: seq<Key>, i: nat)
    requires |provide| <= 1 && i < |provide|
    ensures F.Step(v, F.NotifyKeys(KeysFrom(provide, i))) ==
      (v, [F.NotifyEach(F.Listeners(v, provide[i])), F.NotifyKeys(KeysFrom(provide, i + 1))])
  {
    assert provide[i..] == [provide[i]];
    assert KeysFrom(provide, i) == {provide[i]};
    assert KeysFrom(provide, i + 1) == {} == {provide[i]} - {provide[i]};
  }

  lemma NotifyNone(v: F.Snap, provide: seq<Key>)
    ensures F.Step(v, F.NotifyKeys(KeysFrom(provide, |provide|))) == (v, [])
  {
    assert KeysFrom(provide, |provide|) == {};
  }

  lemma NotifyEachStep(v: F.Snap, ids: seq<FiberId>, i: nat)
    requires Ascending(ids) && i < |ids|
    ensures F.Step(v, F.NotifyEach(Members(ids[i..]))) == (v, [F.Eval(ids[i]), F.NotifyEach(Members(ids[i + 1..]))])
  {
    NextListener(ids, i);
  }

  // ---------------------------------------------------------------------------------------------
  // Completed applies

  lemma LowImage(s: Moment, low: nat, ms: seq<F.Mark>)
    ensures ImageOf(s.(low := low), ms) == ImageOf(s, ms)
  {}

  lemma SkipImage(s: Moment, ms: seq<F.Mark>, raised: bool)
    requires s.work != [] && s.work[0] !in s.fibers
    ensures F.Step(ImageOf(s, ms), F.Next(raised)) == (ImageOf(s.(work := s.work[1..]), ms), [])
  {}

  lemma LandImage(s: Moment, ms: seq<F.Mark>, x: FiberId, failure: bool)
    requires Wired(s) && Popping(s, x)
    requires failure || s.fibers[x].state == Unloading || !Live(s.bonds, s.fibers[x].committed)
    ensures F.Step(ImageOf(s, ms), F.Next(failure)) ==
      (ImageOf(AfterLand(s, x, Landed(s.fibers[x], failure)), ms + [F.Ran(x), F.Cleaned(x)]),
       if !Live(s.bonds, s.fibers[x].committed) && s.fibers[x].reactivate >= 0 then [F.Eval(x)] else [])
  {
    hide Wired;
    Imaged(s, ms);
    SameRetired(s.bonds, x);
    ImageAt(s, ms, x, Landed(s.fibers[x], failure));
  }

  lemma PublishImage(s: Moment, ms: seq<F.Mark>, x: FiberId)
    requires Wired(s) && Popping(s, x) && s.fibers[x].state != Unloading && Live(s.bonds, s.fibers[x].committed)
    ensures F.Step(ImageOf(s, ms), F.Next(false)) ==
      (ImageOf(AfterEnlist(AfterPublish(s, x), x), ms + [F.Ran(x)]), [F.NotifyKeys(PartOf(s, x).Spec().provide)])
  {
    hide Wired, Live, F.Enlisted, F.Bound, Bind, AfterEnlist, AfterPublish;
    Imaged(s, ms);
    PublishedImage(s, ms, x);
  }

  lemma PublishedImage(s: Moment, ms: seq<F.Mark>, x: FiberId)
    requires Wired(s) && Popping(s, x)
    ensures x in ImageOf(s, ms).bodies
    ensures ImageOf(AfterEnlist(AfterPublish(s, x), x), ms + [F.Ran(x)]) ==
      F.Snap(F.Enlisted(ImageOf(s, ms).bodies, x), F.Bound(s.bonds, PartOf(s, x).Spec().provide, x), s.work[1..], ms + [F.Ran(x)])
  {
    hide Wired, F.Enlisted, F.Bound, Bind;
    Imaged(s, ms);
    var v, w := ImageOf(s, ms), ImageOf(AfterEnlist(AfterPublish(s, x), x), ms + [F.Ran(x)]);
    SameBound(s.bonds, PartOf(s, x), x);
    EnlistedMembers(v.bodies, x);
    assert w.bodies.Keys == s.fibers.Keys;
    forall y | y in s.fibers ensures F.Enlisted(v.bodies, x)[y] == w.bodies[y] {
      EnlistedImage(s, ms, x, y);
    }
    assert F.Enlisted(v.bodies, x) == w.bodies;
  }

  lemma SameBound(bs: Bonds, p: Part, x: FiberId)
    ensures F.Bound(bs, p.Spec().provide, x) == Bind(bs, p.provide, x)
  {}

  lemma EnlistedMembers(bodies: map<FiberId, F.Body>, x: FiberId)
    requires x in bodies
    ensures F.Enlisted(bodies, x).Keys == bodies.Keys
  {}

  lemma EnlistedImage(s: Moment, ms: seq<F.Mark>, x: FiberId, y: FiberId)
    requires Wired(s) && Popping(s, x) && y in s.fibers
    ensures var v, w := ImageOf(s, ms), ImageOf(AfterEnlist(AfterPublish(s, x), x), ms + [F.Ran(x)]);
      x in v.bodies && y in F.Enlisted(v.bodies, x) && y in w.bodies && F.Enlisted(v.bodies, x)[y] == w.bodies[y]
  {
    hide Wired, Live, Bind, Rank, Known;
    Imaged(s, ms);
  }

  lemma DrainImage(s: Moment, ms: seq<F.Mark>, raises: set<FiberId>)
    ensures F.Step(ImageOf(s, ms), F.Drain(raises)) ==
      (ImageOf(s, ms), if s.work == [] then [] else [F.Next(s.work[0] in raises), F.Drain(raises)])
  {}

  // ---------------------------------------------------------------------------------------------
  // Mounting, retiring, erasing

  lemma InstallImage(s: Moment, ms: seq<F.Mark>, id: FiberId, slot: Slot, part: char, config: string)
    requires part in s.parts
    ensures F.Step(ImageOf(s, ms), F.Install(id, s.parts[part].Spec())) == (ImageOf(AfterMount(s, id, slot, part, config), ms), [F.Eval(id)])
  {
    var v, w := ImageOf(s, ms), ImageOf(AfterMount(s, id, slot, part, config), ms);
    assert v.bodies[id := F.FreshBody(s.parts[part].Spec())] == w.bodies;
  }

  lemma ReorderedImage(s: Moment, rank: map<FiberId, nat>, idle: set<FiberId>, ms: seq<F.Mark>)
    ensures ImageOf(Reordered(s, rank, idle), ms) == ImageOf(s, ms)
  {}

  lemma RetireImage(s: Moment, ms: seq<F.Mark>, x: FiberId)
    requires Wired(s) && x in s.fibers
    ensures F.Step(ImageOf(s, ms), F.Retire(x)) ==
      (ImageOf(s.(fibers := s.fibers[x := s.fibers[x].(reactivate := -1)]), ms), [F.Unload(x, false)])
  {
    hide Wired;
    Imaged(s, ms);
    ImageAt(s, ms, x, s.fibers[x].(reactivate := -1));
  }

  lemma EraseImage(s: Moment, ms: seq<F.Mark>, x: FiberId)
    ensures F.Step(ImageOf(s, ms), F.Erase(x)) == (ImageOf(s.(fibers := s.fibers - {x}), ms), [])
  {
    assert ImageOf(s, ms).bodies - {x} == ImageOf(s.(fibers := s.fibers - {x}), ms).bodies;
  }

  // ---------------------------------------------------------------------------------------------
  // The registry

  function DeclaredBy(inject: seq<E.Dependency>, n: nat): set<Key>
    requires n <= |inject|
  {
    set i | 0 <= i < n :: inject[i].key
  }

  lemma DeclaredNext(inject: seq<E.Dependency>, n: nat)
    requires n < |inject|
    ensures DeclaredBy(inject, n + 1) == DeclaredBy(inject, n) + {inject[n].key}
    ensures (forall i, j | 0 <= i < j < |inject| :: inject[i].key != inject[j].key) ==> inject[n].key !in DeclaredBy(inject, n)
  {}

  lemma DeclaredNone(inject: seq<E.Dependency>)
    ensures DeclaredBy(inject, 0) == {}
  {}

  lemma DeclaredAll(part: Part)
    ensures DeclaredBy(part.inject, |part.inject|) == part.Keys()
  {}

  /** The fiber is added at the end of the lists of these keys. */
  ghost predicate Appended(index: map<Key, seq<FiberId>>, index2: map<Key, seq<FiberId>>, keys: set<Key>, id: FiberId) {
    forall k :: Listed(index2, k) == Listed(index, k) + if k in keys then [id] else []
  }

  lemma NoneAppended(index: map<Key, seq<FiberId>>, id: FiberId)
    ensures Appended(index, index, {}, id)
  {}

  lemma AppendedNext(index: map<Key, seq<FiberId>>, index2: map<Key, seq<FiberId>>, keys: set<Key>, id: FiberId, key: Key)
    requires Appended(index, index2, keys, id) && key !in keys
    ensures Appended(index, index2[key := Listed(index2, key) + [id]], keys + {key}, id)
  {}

  lemma ListingMore(index: map<Key, seq<FiberId>>, index2: map<Key, seq<FiberId>>, parts: Parts, made: map<FiberId, char>,
                    ids: set<FiberId>, id: FiberId, part: char)
    requires Listing(index, parts, made, ids) && part in parts && ids <= made.Keys && (forall x | x in ids :: x < id)
    requires Appended(index, index2, parts[part].Keys(), id)
    ensures Listing(index2, parts, made[id := part], ids + {id})
  {
    hide E.Component.Keys, ListedRight;
    var made2, ids2 := made[id := part], ids + {id};
    forall k ensures ListedRight(index2, parts, made2, ids2, k) {
      assert ListedRight(index, parts, made, ids, k);
      assert Listed(index2, k) == Listed(index, k) + if k in parts[part].Keys() then [id] else [];
      ListedMore(index, index2, parts, made, ids, id, part, k);
    }
  }

  lemma ListedMore(index: map<Key, seq<FiberId>>, index2: map<Key, seq<FiberId>>, parts: Parts, made: map<FiberId, char>,
                   ids: set<FiberId>, id: FiberId, part: char, k: Key)
    requires ListedRight(index, parts, made, ids, k) && part in parts && ids <= made.Keys && (forall x | x in ids :: x < id)
    requires Listed(index2, k) == Listed(index, k) + if k in parts[part].Keys() then [id] else []
    ensures ListedRight(index2, parts, made[id := part], ids + {id}, k)
  {
    hide E.Component.Keys, Listed;
    var l, l2 := Listed(index, k), Listed(index2, k);
    assert forall i | 0 <= i < |l| :: l[i] in l;
    forall x ensures x in l2 <==> x in l || (x == id && k in parts[part].Keys()) {}
  }

  lemma {:induction false} WithoutAscending(ids: seq<FiberId>, id: FiberId)
    requires Ascending(ids)
    ensures Ascending(Without(ids, id))
  {
    if ids != [] {
      var rest := ids[1..];
      var kept := Without(rest, id);
      WithoutAscending(rest, id);
      forall i | 0 <= i < |kept| ensures ids[0] < kept[i] {
        assert kept[i] in kept;
        var j :| 0 <= j < |rest| && rest[j] == kept[i];
        assert ids[j + 1] == kept[i];
      }
    }
  }

  lemma ListingLess(index: map<Key, seq<FiberId>>, index2: map<Key, seq<FiberId>>, parts: Parts, made: map<FiberId, char>,
                    ids: set<FiberId>, id: FiberId)
    requires Listing(index, parts, made, ids)
    requires index2 == map k | k in index :: Without(index[k], id)
    ensures Listing(index2, parts, made, ids - {id})
  {
    forall k ensures ListedRight(index2, parts, made, ids - {id}, k) {
      assert ListedRight(index, parts, made, ids, k);
      WithoutAscending(Listed(index, k), id);
      assert Listed(index2, k) == Without(Listed(index, k), id);
    }
  }
}
