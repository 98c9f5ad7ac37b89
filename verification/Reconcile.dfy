/**
  Declarative reconciliation (src/runtime.cpp:210-314): a list of desired components, one path each,
  against the fibers that earlier lists installed.
 */
module Reconcile {
  import opened Fibers
  import opened FiberSteps
  import opened Cascades
  import opened Handlers
  import opened Engine
  import opened EngineTheorems
  import opened Quiescence

  type Path = string

  /** The descriptor name a path wants, which settles the component, and its configuration. */
  datatype Wanted = Wanted(name: string, config: string)

  datatype Desired = Desired(path: Path, want: Wanted)

  function Wishes(desired: seq<Desired>): map<Path, Wanted> {
    if desired == [] then map[]
    else Wishes(desired[..|desired| - 1])[desired[|desired| - 1].path := desired[|desired| - 1].want]
  }

  predicate DistinctPaths(desired: seq<Desired>) {
    forall i, j | 0 <= i < j < |desired| :: desired[i].path != desired[j].path
  }

  lemma {:induction false} WishesMade(desired: seq<Desired>)
    requires DistinctPaths(desired)
    ensures forall i | 0 <= i < |desired| :: desired[i].path in Wishes(desired) && Wishes(desired)[desired[i].path] == desired[i].want
    ensures forall p | p in Wishes(desired) :: exists i :: 0 <= i < |desired| && desired[i].path == p
  {
    if desired != [] {
      var most, last := desired[..|desired| - 1], desired[|desired| - 1];
      WishesMade(most);
      forall i | 0 <= i < |desired|
        ensures desired[i].path in Wishes(desired) && Wishes(desired)[desired[i].path] == desired[i].want
      {
        if i < |most| {
          assert desired[i] == most[i];
        }
      }
      forall p | p in Wishes(desired) ensures exists i :: 0 <= i < |desired| && desired[i].path == p {
        assert p == last.path || p in Wishes(most);
        if p == last.path {
          assert desired[|desired| - 1].path == p;
        } else {
          var i :| 0 <= i < |most| && most[i].path == p;
          assert desired[i].path == p;
        }
      }
    }
  }

  /** The discipline a list must keep: known components the engine admits, one source per key. */
  ghost predicate Sane(catalog: map<string, Component>, wishes: map<Path, Wanted>) {
    && (forall p | p in wishes :: wishes[p].name in catalog && Admissible(catalog[wishes[p].name]))
    && (forall p, q | p in wishes && q in wishes && p != q ::
          catalog[wishes[p].name].provide !! catalog[wishes[q].name].provide)
  }

  /** The reconciled paths, and what each installed fiber was mounted as. */
  datatype Book = Book(reconciled: map<Path, FiberId>, installed: map<FiberId, Wanted>)

  /** Entries of installed fibers are of a known component; no fiber has two paths. */
  ghost predicate Filed(catalog: map<string, Component>, b: Book, cs: Specs) {
    && (forall p | p in b.reconciled && b.reconciled[p] in cs :: Known(catalog, b, cs, b.reconciled[p]))
    && (forall p, q | p in b.reconciled && q in b.reconciled && p != q :: b.reconciled[p] != b.reconciled[q])
  }

  predicate Known(catalog: map<string, Component>, b: Book, cs: Specs, id: FiberId) {
    id in cs && id in b.installed && b.installed[id].name in catalog && cs[id] == catalog[b.installed[id].name]
  }

  /** The path is reconciled to an installed fiber of the wanted name and configuration. */
  predicate Meets(b: Book, cs: Specs, p: Path, want: Wanted) {
    p in b.reconciled && b.reconciled[p] in cs && b.reconciled[p] in b.installed && b.installed[b.reconciled[p]] == want
  }

  /** Every reconciled path outside `todo` is wanted and met. */
  ghost predicate Checked(b: Book, cs: Specs, wishes: map<Path, Wanted>, todo: set<Path>) {
    forall p | p in b.reconciled && p !in todo :: p in wishes && Meets(b, cs, p, wishes[p])
  }

  /** The reconciled paths are exactly the wanted ones, each met. */
  ghost predicate Converged(b: Book, cs: Specs, wishes: map<Path, Wanted>) {
    b.reconciled.Keys == wishes.Keys && Checked(b, cs, wishes, {})
  }

  /** Fibers mounted by other means share no provided key with what is wanted. */
  ghost predicate Apart(catalog: map<string, Component>, b: Book, cs: Specs, wishes: map<Path, Wanted>) {
    forall x, p | x in cs && x !in b.reconciled.Values && p in wishes && wishes[p].name in catalog ::
      cs[x].provide !! catalog[wishes[p].name].provide
  }

  /** The withdrawn fibers: retired, and no longer anybody's. */
  ghost predicate Withdrawn(fs: Pool, b: Book, doomed: set<FiberId>) {
    forall d | d in doomed :: d in fs && fs[d].reactivate == -1 && d !in b.reconciled.Values
  }

  /** What was dropped from the book is withdrawn or was gone. */
  ghost predicate Trimmed(a: Book, b: Book, cs: Specs, doomed: set<FiberId>) {
    && (forall p | p in b.reconciled :: p in a.reconciled && b.reconciled[p] == a.reconciled[p])
    && (forall p | p in a.reconciled && p !in b.reconciled :: a.reconciled[p] in doomed || a.reconciled[p] !in cs)
    && (forall d | d in doomed :: d in a.reconciled.Values)
  }

  // ---------------------------------------------------------------------------------------------
  // What becomes of each entry

  /** The turn of one entry: the engine before it and after it. */
  datatype Turn = Turn(path: Path, before: World, after: World)

  /** An entry keeps its fiber when it is installed and wanted under the same name, and its configuration is
      the wanted one or the fiber, active when its turn comes, takes it over. */
  predicate Keeps(w: World, a: Book, wishes: map<Path, Wanted>, accepts: (FiberId, string) -> bool, p: Path)
    requires p in a.reconciled
  {
    var id := a.reconciled[p];
    && id in w.fibers && p in wishes && id in a.installed && a.installed[id].name == wishes[p].name
    && (a.installed[id].config == wishes[p].config
        || (w.fibers[id].state == Active && accepts(id, wishes[p].config)))
  }

  /** A fiber withdrawn for good: at rest it stays there, a pending apply is diverted, and an active one goes
      down with everything that relies on it. */
  ghost predicate Goes(v: World, w: World, id: FiberId) {
    && id in v.fibers && id in w.fibers && w.fibers[id].reactivate == -1
    && var f := v.fibers[id];
       if f.state == Active then
         && Leads(v.(fibers := v.fibers[id := Retired(f)]), w)
         && forall x | x in Dependents(v.fibers, id) :: x in w.fibers && !Published(w.fibers[x])
       else w == v.(fibers := v.fibers[id := if f.state == Loading then Diverted(Retired(f)) else Retired(f)])
  }

  ghost predicate Ruled(t: Turn, a: Book, wishes: map<Path, Wanted>, accepts: (FiberId, string) -> bool) {
    && t.path in a.reconciled
    && if Keeps(t.before, a, wishes, accepts, t.path) || a.reconciled[t.path] !in t.before.fibers then t.after == t.before
       else Goes(t.before, t.after, a.reconciled[t.path])
  }

  /** What a turn leaves in the book: the fiber under its path with the wanted configuration, or nothing; and
      the fiber of a dropped entry is among the withdrawn, unless it was gone. */
  predicate Booked(t: Turn, a: Book, b: Book, wishes: map<Path, Wanted>, accepts: (FiberId, string) -> bool, doomed: set<FiberId>) {
    && t.path in a.reconciled
    && var id := a.reconciled[t.path];
    if Keeps(t.before, a, wishes, accepts, t.path) then
      && t.path in b.reconciled && b.reconciled[t.path] == id && id !in doomed
      && id in b.installed && b.installed[id] == wishes[t.path]
    else t.path !in b.reconciled && (id in doomed <==> id in t.before.fibers)
  }

  ghost function Upto(w0: World, course: seq<Turn>, i: nat): World
    requires i <= |course|
  {
    if i == 0 then w0 else course[i - 1].after
  }

  predicate SameEntry(a: Book, b: Book, p: Path) {
    && p in a.reconciled && p in b.reconciled && b.reconciled[p] == a.reconciled[p]
    && var id := a.reconciled[p];
       (id in b.installed <==> id in a.installed) && (id in a.installed ==> b.installed[id] == a.installed[id])
  }

  /** The turns follow one another, from `w0` to `w`. */
  ghost predicate Chained(w0: World, course: seq<Turn>, w: World) {
    w == Upto(w0, course, |course|) && forall i | 0 <= i < |course| :: course[i].before == Upto(w0, course, i)
  }

  /** The turns of the entries outside `todo`, once each, and what they left. */
  ghost predicate Judged(a: Book, b: Book, wishes: map<Path, Wanted>, accepts: (FiberId, string) -> bool, doomed: set<FiberId>,
                         todo: set<Path>, course: seq<Turn>)
  {
    && (forall i | 0 <= i < |course| ::
          && Ruled(course[i], a, wishes, accepts) && course[i].path !in todo
          && Booked(course[i], a, b, wishes, accepts, doomed))
    && (forall i, j | 0 <= i < j < |course| :: course[i].path != course[j].path)
    && (forall p | p in a.reconciled && p !in todo :: exists i :: 0 <= i < |course| && course[i].path == p)
    && (forall p | p in todo :: SameEntry(a, b, p) && a.reconciled[p] !in doomed)
  }

  /** One turn changes the book at one path and one fiber only. */
  ghost predicate Near(b: Book, c: Book, p: Path, id: FiberId) {
    && (forall q | q != p :: (q in c.reconciled <==> q in b.reconciled) && (q in b.reconciled ==> c.reconciled[q] == b.reconciled[q]))
    && (forall x | x != id :: (x in c.installed <==> x in b.installed) && (x in b.installed ==> c.installed[x] == b.installed[x]))
  }

  ghost predicate Apiece(a: Book) {
    forall p, q | p in a.reconciled && q in a.reconciled && p != q :: a.reconciled[p] != a.reconciled[q]
  }

  lemma BookedStays(u: Turn, a: Book, b: Book, c: Book, wishes: map<Path, Wanted>, accepts: (FiberId, string) -> bool,
                    doomed: set<FiberId>, more: set<FiberId>, p: Path)
    requires u.path in a.reconciled && p in a.reconciled && u.path != p && Apiece(a)
    requires Booked(u, a, b, wishes, accepts, doomed) && Near(b, c, p, a.reconciled[p]) && doomed <= more <= doomed + {a.reconciled[p]}
    ensures Booked(u, a, c, wishes, accepts, more)
  {
    hide Keeps;
  }

  lemma EntryStays(a: Book, b: Book, c: Book, doomed: set<FiberId>, more: set<FiberId>, p: Path, q: Path)
    requires SameEntry(a, b, q) && a.reconciled[q] !in doomed && p in a.reconciled && p != q && Apiece(a)
    requires Near(b, c, p, a.reconciled[p]) && doomed <= more <= doomed + {a.reconciled[p]}
    ensures SameEntry(a, c, q) && q in a.reconciled && a.reconciled[q] !in more
  {}

  /** What one more turn adds. */
  lemma JudgeStep(a: Book, b: Book, c: Book, wishes: map<Path, Wanted>, accepts: (FiberId, string) -> bool,
                  doomed: set<FiberId>, more: set<FiberId>, todo: set<Path>, course: seq<Turn>, t: Turn)
    requires Judged(a, b, wishes, accepts, doomed, todo + {t.path}, course) && t.path !in todo && Apiece(a)
    requires Ruled(t, a, wishes, accepts) && Booked(t, a, c, wishes, accepts, more)
    requires Near(b, c, t.path, a.reconciled[t.path]) && doomed <= more <= doomed + {a.reconciled[t.path]}
    ensures Judged(a, c, wishes, accepts, more, todo, course + [t])
  {
    hide Keeps, Ruled, Booked, Near, SameEntry, Apiece;
    var all := course + [t];
    RuledPath(t, a, wishes, accepts);
    forall i | 0 <= i < |course| ensures Ruled(all[i], a, wishes, accepts) && Booked(all[i], a, c, wishes, accepts, more) {
      assert all[i] == course[i] && course[i].path != t.path;
      RuledPath(course[i], a, wishes, accepts);
      BookedStays(course[i], a, b, c, wishes, accepts, doomed, more, t.path);
    }
    forall p | p in a.reconciled && p !in todo ensures exists i :: 0 <= i < |all| && all[i].path == p {
      if p == t.path {
        assert all[|course|].path == p;
      } else {
        var i :| 0 <= i < |course| && course[i].path == p;
        assert all[i].path == p;
      }
    }
    forall q | q in todo ensures SameEntry(a, c, q) && q in a.reconciled && a.reconciled[q] !in more {
      EntryStays(a, b, c, doomed, more, t.path, q);
    }
  }

  lemma JudgeStart(catalog: map<string, Component>, a: Book, cs: Specs, w: World, wishes: map<Path, Wanted>, accepts: (FiberId, string) -> bool)
    requires Filed(catalog, a, cs)
    ensures Judged(a, a, wishes, accepts, {}, a.reconciled.Keys, []) && Chained(w, [], w) && Apiece(a)
  {}

  lemma JudgedNext(a: Book, b: Book, wishes: map<Path, Wanted>, accepts: (FiberId, string) -> bool, doomed: set<FiberId>,
                   todo: set<Path>, course: seq<Turn>, p: Path)
    requires Judged(a, b, wishes, accepts, doomed, todo + {p}, course)
    ensures SameEntry(a, b, p) && a.reconciled[p] !in doomed
  {
    hide SameEntry, Ruled, Booked;
    assert p in todo + {p} ==> SameEntry(a, b, p);
  }

  /** What a turn does depends on its own entry alone. */
  lemma SameTurn(a: Book, b: Book, c: Book, wishes: map<Path, Wanted>, accepts: (FiberId, string) -> bool, doomed: set<FiberId>, t: Turn)
    requires SameEntry(a, b, t.path) && Ruled(t, b, wishes, accepts) && Booked(t, b, c, wishes, accepts, doomed)
    ensures Ruled(t, a, wishes, accepts) && Booked(t, a, c, wishes, accepts, doomed)
  {
    hide Goes;
  }

  lemma RuledPath(t: Turn, a: Book, wishes: map<Path, Wanted>, accepts: (FiberId, string) -> bool)
    requires Ruled(t, a, wishes, accepts)
    ensures t.path in a.reconciled
  {}

  /** Entries are only added, each to a fiber mounted since. */
  predicate Extends(b: Book, c: Book, next: FiberId) {
    && (forall p | p in b.reconciled :: p in c.reconciled && c.reconciled[p] == b.reconciled[p])
    && (forall p | p in c.reconciled && p !in b.reconciled :: c.reconciled[p] >= next)
  }

  function Newcomers(b: Book, next: FiberId): set<FiberId> {
    set p | p in b.reconciled && b.reconciled[p] >= next :: b.reconciled[p]
  }

  lemma ExtendsRefl(b: Book, next: FiberId)
    ensures Extends(b, b, next)
  {}

  lemma ExtendsMore(b: Book, c: Book, d: Book, next: FiberId, p: Path)
    requires Extends(b, c, next) && p in d.reconciled && p !in c.reconciled && d.reconciled == c.reconciled[p := d.reconciled[p]]
    requires d.reconciled[p] >= next
    ensures Extends(b, d, next) && Newcomers(d, next) == Newcomers(c, next) + {d.reconciled[p]}
  {
    forall x | x in Newcomers(c, next) ensures x in Newcomers(d, next) {
      var q :| q in c.reconciled && c.reconciled[q] == x;
      assert d.reconciled[q] == x;
    }
    assert d.reconciled[p] in Newcomers(d, next);
  }

  /** The whole of a reconciliation: every entry has had its turn; a kept one has its fiber, the fiber of a
      dropped one is withdrawn unless it was gone, and whatever was not kept is mounted anew. */
  ghost predicate Fulfilled(a: Book, c: Book, wishes: map<Path, Wanted>, accepts: (FiberId, string) -> bool, doomed: set<FiberId>,
                            next: FiberId, course: seq<Turn>)
  {
    && (forall p | p in a.reconciled :: exists i :: 0 <= i < |course| && course[i].path == p)
    && (forall i, j | 0 <= i < j < |course| :: course[i].path != course[j].path)
    && (forall i | 0 <= i < |course| ::
          && Ruled(course[i], a, wishes, accepts)
          && var p, id := course[i].path, a.reconciled[course[i].path];
             if Keeps(course[i].before, a, wishes, accepts, p) then p in c.reconciled && c.reconciled[p] == id && id !in doomed
             else (id in doomed <==> id in course[i].before.fibers) && (p in c.reconciled ==> c.reconciled[p] >= next))
    && (forall p | p in c.reconciled && p !in a.reconciled :: c.reconciled[p] >= next)
    && (forall x | x in doomed :: x in a.reconciled.Values)
  }

  lemma JudgedFulfilled(a: Book, b: Book, c: Book, wishes: map<Path, Wanted>, accepts: (FiberId, string) -> bool, doomed: set<FiberId>,
                        next: FiberId, course: seq<Turn>)
    requires Judged(a, b, wishes, accepts, doomed, {}, course) && Extends(b, c, next)
    requires (forall p | p in b.reconciled :: p in a.reconciled) && forall x | x in doomed :: x in a.reconciled.Values
    ensures Fulfilled(a, c, wishes, accepts, doomed, next, course)
  {
    hide Keeps, Goes;
  }

  lemma {:induction false} ChainKeys(a: Book, w0: World, course: seq<Turn>, w: World, wishes: map<Path, Wanted>,
                                     accepts: (FiberId, string) -> bool, i: nat)
    requires Chained(w0, course, w) && i <= |course| && forall j | 0 <= j < |course| :: Ruled(course[j], a, wishes, accepts)
    ensures Upto(w0, course, i).fibers.Keys == w0.fibers.Keys
  {
    hide Ruled;
    if i > 0 {
      ChainKeys(a, w0, course, w, wishes, accepts, i - 1);
      RuledKeys(course[i - 1], a, wishes, accepts);
    }
  }

  lemma RuledKeys(t: Turn, a: Book, wishes: map<Path, Wanted>, accepts: (FiberId, string) -> bool)
    requires Ruled(t, a, wishes, accepts)
    ensures t.after.fibers.Keys == t.before.fibers.Keys
  {
    hide Keeps, Leads, Dependents;
    var id := a.reconciled[t.path];
    if t.after != t.before && t.before.fibers[id].state == Active {
      SameMembers(t.before.(fibers := t.before.fibers[id := Retired(t.before.fibers[id])]), t.after);
    }
  }

  /** What was met already is not touched. */
  lemma MetKept(a: Book, b: Book, w0: World, w: World, wishes: map<Path, Wanted>, accepts: (FiberId, string) -> bool,
                doomed: set<FiberId>, course: seq<Turn>, p: Path)
    requires Chained(w0, course, w) && Judged(a, b, wishes, accepts, doomed, {}, course)
    requires p in wishes && Meets(a, SpecsOf(w0.fibers), p, wishes[p])
    ensures p in b.reconciled && b.reconciled[p] == a.reconciled[p] && b.reconciled[p] !in doomed
  {
    hide Goes;
    var i :| 0 <= i < |course| && course[i].path == p;
    ChainKeys(a, w0, course, w, wishes, accepts, i);
    assert Booked(course[i], a, b, wishes, accepts, doomed);
  }

  lemma ChainStep(w0: World, course: seq<Turn>, t: Turn)
    requires Chained(w0, course, t.before)
    ensures Chained(w0, course + [t], t.after)
  {
    var all := course + [t];
    forall i | 0 <= i <= |course| ensures all[i].before == Upto(w0, all, i) {
      assert i > 0 ==> all[i - 1] == course[i - 1];
      assert i < |course| ==> all[i] == course[i] && course[i].before == Upto(w0, course, i);
    }
  }

  /** The engine between handlers. */
  ghost predicate Steady(r: Runtime, raises: set<FiberId>)
    reads r
  {
    r.Valid() && Staffed(r.Now(), raises)
  }

  lemma ForgetStep(catalog: map<string, Component>, a: Book, b: Book, cs: Specs, wishes: map<Path, Wanted>, todo: set<Path>,
                   doomed: set<FiberId>, p: Path, gone: set<FiberId>)
    requires Filed(catalog, b, cs) && Checked(b, cs, wishes, todo + {p}) && Trimmed(a, b, cs, doomed) && p in b.reconciled
    requires (b.reconciled[p] !in cs && gone == {}) || gone == {b.reconciled[p]}
    ensures var c := b.(reconciled := b.reconciled - {p});
      && Filed(catalog, c, cs) && Checked(c, cs, wishes, todo) && Trimmed(a, c, cs, doomed + gone)
      && b.reconciled[p] !in c.reconciled.Values
  {
    var c := b.(reconciled := b.reconciled - {p});
    assert forall q | q in c.reconciled :: q in b.reconciled && q != p && c.reconciled[q] == b.reconciled[q];
    forall d | d in doomed + gone ensures d in a.reconciled.Values {
      assert b.reconciled[p] == a.reconciled[p];
    }
  }

  lemma KeepStep(b: Book, cs: Specs, wishes: map<Path, Wanted>, todo: set<Path>, p: Path)
    requires Checked(b, cs, wishes, todo + {p}) && (p in b.reconciled ==> p in wishes && Meets(b, cs, p, wishes[p]))
    ensures Checked(b, cs, wishes, todo)
  {}

  lemma ReconfigureStep(catalog: map<string, Component>, a: Book, b: Book, cs: Specs, wishes: map<Path, Wanted>, todo: set<Path>,
                        doomed: set<FiberId>, p: Path)
    requires Filed(catalog, b, cs) && Checked(b, cs, wishes, todo + {p}) && Trimmed(a, b, cs, doomed)
    requires p in b.reconciled && b.reconciled[p] in cs && p in wishes
    requires b.reconciled[p] in b.installed && b.installed[b.reconciled[p]].name == wishes[p].name
    ensures var c := b.(installed := b.installed[b.reconciled[p] := wishes[p]]);
      Filed(catalog, c, cs) && Checked(c, cs, wishes, todo) && Trimmed(a, c, cs, doomed)
  {
    var c := b.(installed := b.installed[b.reconciled[p] := wishes[p]]);
    forall q | q in c.reconciled && c.reconciled[q] in cs ensures Known(catalog, c, cs, c.reconciled[q]) {
      assert Known(catalog, b, cs, b.reconciled[q]);
      assert q == p ==> catalog[b.installed[b.reconciled[p]].name] == catalog[wishes[p].name];
    }
    forall q | q in c.reconciled && q !in todo ensures q in wishes && Meets(c, cs, q, wishes[q]) {
      assert q != p ==> Meets(b, cs, q, wishes[q]);
    }
  }

  /** Once the withdrawn fibers are erased, what is left was kept or is foreign. */
  lemma BuriedApart(catalog: map<string, Component>, a: Book, b: Book, cs: Specs, wishes: map<Path, Wanted>, doomed: set<FiberId>)
    requires Filed(catalog, b, cs) && Checked(b, cs, wishes, {}) && Trimmed(a, b, cs, doomed) && Apart(catalog, a, cs, wishes)
    requires forall d | d in doomed :: d !in b.reconciled.Values
    ensures Filed(catalog, b, cs - doomed) && Checked(b, cs - doomed, wishes, {}) && Apart(catalog, b, cs - doomed, wishes)
  {
    forall p | p in b.reconciled ensures b.reconciled[p] !in doomed {
      assert b.reconciled[p] in b.reconciled.Values;
    }
    forall p | p in b.reconciled && b.reconciled[p] in cs - doomed ensures Known(catalog, b, cs - doomed, b.reconciled[p]) {
      assert Known(catalog, b, cs, b.reconciled[p]);
    }
    forall p | p in a.reconciled
      ensures a.reconciled[p] in b.reconciled.Values || a.reconciled[p] in doomed || a.reconciled[p] !in cs
    {
      assert p in b.reconciled ==> b.reconciled[p] in b.reconciled.Values;
    }
  }

  lemma AddStep(catalog: map<string, Component>, b: Book, cs: Specs, wishes: map<Path, Wanted>, path: Path, id: FiberId)
    requires Filed(catalog, b, cs) && Checked(b, cs, wishes, {}) && Apart(catalog, b, cs, wishes)
    requires path in wishes && wishes[path].name in catalog && path !in b.reconciled && id !in cs
    ensures
      var c := Book(b.reconciled[path := id], b.installed[id := wishes[path]]);
      var ds := cs[id := catalog[wishes[path].name]];
      Filed(catalog, c, ds) && Checked(c, ds, wishes, {}) && Apart(catalog, c, ds, wishes)
  {
    var c := Book(b.reconciled[path := id], b.installed[id := wishes[path]]);
    var ds := cs[id := catalog[wishes[path].name]];
    assert c.reconciled[path] == id;
    forall p | p in b.reconciled ensures b.reconciled[p] in cs && b.reconciled[p] != id && c.reconciled[p] == b.reconciled[p] {
      assert Meets(b, cs, p, wishes[p]);
    }
    forall p | p in c.reconciled && c.reconciled[p] in ds ensures Known(catalog, c, ds, c.reconciled[p]) {
      assert p != path ==> Known(catalog, b, cs, b.reconciled[p]);
    }
    assert id in c.reconciled.Values;
    forall p | p in b.reconciled ensures b.reconciled[p] in c.reconciled.Values {
      assert c.reconciled[p] == b.reconciled[p];
    }
  }

  /** A wanted component not installed yet shares no provided key with anything installed. */
  lemma Room(catalog: map<string, Component>, b: Book, cs: Specs, wishes: map<Path, Wanted>, path: Path, x: FiberId)
    requires Filed(catalog, b, cs) && Checked(b, cs, wishes, {}) && Apart(catalog, b, cs, wishes) && Sane(catalog, wishes)
    requires path in wishes && path !in b.reconciled && x in cs
    ensures cs[x].provide !! catalog[wishes[path].name].provide
  {
    if x in b.reconciled.Values {
      var q :| q in b.reconciled && b.reconciled[q] == x;
      assert Known(catalog, b, cs, b.reconciled[q]) && Meets(b, cs, q, wishes[q]);
    }
  }

  class Reconciler {
    const engine: Runtime
    const catalog: map<string, Component>
    var reconciled: map<Path, FiberId>
    var installed: map<FiberId, Wanted>

    ghost function Now(): Book
      reads this
    {
      Book(reconciled, installed)
    }

    ghost function Declared(): Specs
      reads this, engine
    {
      SpecsOf(engine.fibers)
    }

    ghost predicate Valid(raises: set<FiberId>)
      reads this, engine
    {
      Steady(engine, raises) && Filed(catalog, Now(), Declared())
    }

    constructor (engine: Runtime, catalog: map<string, Component>)
      ensures this.engine == engine && this.catalog == catalog && reconciled == map[]
      ensures Filed(catalog, Now(), Declared())
    {
      this.engine, this.catalog, reconciled, installed := engine, catalog, map[], map[];
    }

    /** The first pass: entries that are gone, unwanted or changed beyond reconfiguration are dropped,
        and their fibers withdrawn. */
    method Sweep(wishes: map<Path, Wanted>, accepts: (FiberId, string) -> bool, ghost raises: set<FiberId>)
        returns (doomed: set<FiberId>, ghost course: seq<Turn>)
      requires Valid(raises)
      modifies this, engine
      ensures Valid(raises) && Declared() == old(Declared())
      ensures Checked(Now(), Declared(), wishes, {}) && Trimmed(old(Now()), Now(), Declared(), doomed)
      ensures Withdrawn(engine.fibers, Now(), doomed)
      ensures old(Converged(Now(), Declared(), wishes)) ==>
        doomed == {} && Now() == old(Now()) && engine.Now() == old(engine.Now())
      ensures engine.nextId == old(engine.nextId) && Chained(old(engine.Now()), course, engine.Now())
      ensures forall p | p in wishes && old(Meets(Now(), Declared(), p, wishes[p])) ::
        p in reconciled && reconciled[p] == old(reconciled)[p] && reconciled[p] !in doomed
      ensures Judged(old(Now()), Now(), wishes, accepts, doomed, {}, course)
    {
      hide Steady, Filed, Checked, Trimmed, Withdrawn, SpecsOf, Chained, Judged, Apiece;
      doomed, course := {}, [];
      var todo := reconciled.Keys;
      ghost var a := Now();
      SweepStart(catalog, a, Declared(), wishes, engine.fibers);
      JudgeStart(catalog, a, Declared(), engine.Now(), wishes, accepts);
      while todo != {}
        invariant Valid(raises) && Declared() == old(Declared()) && todo <= reconciled.Keys
        invariant Checked(Now(), Declared(), wishes, todo) && Trimmed(a, Now(), Declared(), doomed)
        invariant Withdrawn(engine.fibers, Now(), doomed) && engine.nextId == old(engine.nextId)
        invariant Chained(old(engine.Now()), course, engine.Now()) && Judged(a, Now(), wishes, accepts, doomed, todo, course)
        invariant old(Converged(Now(), Declared(), wishes)) ==>
          doomed == {} && Now() == old(Now()) && engine.Now() == old(engine.Now())
      {
        var path :| path in todo;
        ConvergedMeets(a, old(Declared()), wishes, path);
        assert todo == todo - {path} + {path};
        todo := todo - {path};
        ghost var b, before, turn := Now(), doomed, *;
        JudgedNext(a, b, wishes, accepts, doomed, todo, course, path);
        doomed, turn := Visit(path, wishes, accepts, a, todo, doomed, raises);
        SameTurn(a, b, Now(), wishes, accepts, doomed, turn);
        JudgeStep(a, b, Now(), wishes, accepts, before, doomed, todo, course, turn);
        ChainStep(old(engine.Now()), course, turn);
        course := course + [turn];
      }
      forall p | p in wishes && Meets(a, old(Declared()), p, wishes[p])
        ensures p in reconciled && reconciled[p] == a.reconciled[p] && reconciled[p] !in doomed
      {
        MetKept(a, Now(), old(engine.Now()), engine.Now(), wishes, accepts, doomed, course, p);
      }
    }

    /** One entry of the first pass. */
    method Visit(path: Path, wishes: map<Path, Wanted>, accepts: (FiberId, string) -> bool, ghost a: Book, ghost todo: set<Path>,
                 doomed: set<FiberId>, ghost raises: set<FiberId>) returns (more: set<FiberId>, ghost turn: Turn)
      requires Valid(raises) && path in reconciled && path !in todo
      requires Checked(Now(), Declared(), wishes, todo + {path}) && Trimmed(a, Now(), Declared(), doomed)
      requires Withdrawn(engine.fibers, Now(), doomed)
      modifies this, engine
      ensures Valid(raises) && Declared() == old(Declared()) && old(reconciled).Keys - {path} <= reconciled.Keys
      ensures Checked(Now(), Declared(), wishes, todo) && Trimmed(a, Now(), Declared(), more)
      ensures Withdrawn(engine.fibers, Now(), more)
      ensures path in wishes && old(Meets(Now(), Declared(), path, wishes[path])) ==>
        more == doomed && Now() == old(Now()) && engine.Now() == old(engine.Now())
      ensures engine.nextId == old(engine.nextId)
      ensures turn == Turn(path, old(engine.Now()), engine.Now()) && Ruled(turn, old(Now()), wishes, accepts)
      ensures old(reconciled)[path] !in doomed ==> Booked(turn, old(Now()), Now(), wishes, accepts, more)
      ensures Near(old(Now()), Now(), path, old(reconciled)[path]) && doomed <= more <= doomed + {old(reconciled)[path]}
    {
      hide Steady, Filed, Checked, Trimmed, Withdrawn, SpecsOf, Goes;
      var id := reconciled[path];
      InSpecs(engine.fibers, id);
      more := doomed;
      ghost var v := engine.Now();
      turn := Turn(path, v, v);
      if id !in engine.fibers {
        ForgetStep(catalog, a, Now(), Declared(), wishes, todo, doomed, path, {});
        WithdrawnLess(engine.fibers, Now(), doomed, path);
        reconciled := reconciled - {path};
        assert doomed + {} == doomed;
        return;
      }
      KnownHere(catalog, Now(), Declared(), path);
      if path !in wishes || installed[id].name != wishes[path].name {
        Doom(path, wishes, a, todo, doomed, raises);
        return doomed + {id}, Turn(path, v, engine.Now());
      }
      if installed[id].config != wishes[path].config {
        var applied := engine.fibers[id].state == Active && accepts(id, wishes[path].config);
        if !applied {
          Doom(path, wishes, a, todo, doomed, raises);
          return doomed + {id}, Turn(path, v, engine.Now());
        }
        ReconfigureStep(catalog, a, Now(), Declared(), wishes, todo, doomed, path);
        WithdrawnSame(engine.fibers, Now(), doomed, wishes[path], id);
        installed := installed[id := wishes[path]];
      } else {
        KeepStep(Now(), Declared(), wishes, todo, path);
      }
    }

    /** Withdraws the fiber of a path and forgets the path. */
    method Doom(path: Path, ghost wishes: map<Path, Wanted>, ghost a: Book, ghost todo: set<Path>, ghost doomed: set<FiberId>,
                ghost raises: set<FiberId>)
      requires Valid(raises) && path in reconciled && reconciled[path] in engine.fibers
      requires Checked(Now(), Declared(), wishes, todo + {path}) && Trimmed(a, Now(), Declared(), doomed)
      requires Withdrawn(engine.fibers, Now(), doomed)
      modifies this`reconciled, engine
      ensures Valid(raises) && Declared() == old(Declared()) && reconciled == old(reconciled) - {path}
      ensures Checked(Now(), Declared(), wishes, todo) && Trimmed(a, Now(), Declared(), doomed + {old(reconciled)[path]})
      ensures Withdrawn(engine.fibers, Now(), doomed + {old(reconciled)[path]})
      ensures Goes(old(engine.Now()), engine.Now(), old(reconciled)[path]) && engine.nextId == old(engine.nextId)
    {
      hide Filed, Checked, Trimmed, Steady, SpecsOf, Goes;
      var id := reconciled[path];
      ForgetStep(catalog, a, Now(), Declared(), wishes, todo, doomed, path, {id});
      ghost var before := engine.fibers;
      WithdrawSteady(id, raises);
      WithdrawnMore(before, engine.fibers, Now(), doomed, path);
      reconciled := reconciled - {path};
    }

    /** The engine's part of it. */
    method WithdrawSteady(id: FiberId, ghost raises: set<FiberId>)
      requires Steady(engine, raises) && id in engine.fibers
      modifies engine
      ensures Steady(engine, raises) && Declared() == old(Declared())
      ensures id in engine.fibers && engine.fibers[id].reactivate == -1
      ensures forall x | x in old(engine.fibers) && old(engine.fibers)[x].reactivate == -1 ::
        x in engine.fibers && engine.fibers[x].reactivate == -1
      ensures Goes(old(engine.Now()), engine.Now(), id) && engine.nextId == old(engine.nextId)
    {
      hide Staffed, Sound, Withdrawing, Leads, Spared, Dependents;
      ghost var v := engine.Now();
      DependentsClosed(engine.fibers, id);
      engine.Withdraw(id);
      WithdrawStaffed(v, engine.Now(), raises, id);
      SameSpecs(v.fibers, engine.fibers);
    }

    /** Waits until the withdrawn fibers are down, then erases their records. */
    method Bury(doomed: set<FiberId>, raises: set<FiberId>)
      requires Steady(engine, raises) && Withdrawn(engine.fibers, Now(), doomed)
      modifies engine
      ensures Steady(engine, raises) && Declared() == old(Declared()) - doomed && engine.nextId == old(engine.nextId)
      ensures doomed == {} ==> engine.Now() == old(engine.Now())
    {
      hide Staffed, Sound, Withdrawing, SameTerms, SpecsOf, Moving;
      if doomed == {} {
        return;
      }
      Await(doomed, raises);
      ghost var cs := Declared();
      var todo := doomed;
      while todo != {}
        invariant todo <= doomed && Steady(engine, raises) && Moving(engine.fibers) == {}
        invariant Declared() == cs - (doomed - todo) && engine.nextId == old(engine.nextId)
        invariant forall d | d in todo :: d in engine.fibers && engine.fibers[d].state == Inactive
      {
        var d :| d in todo;
        EraseStaffed(engine.Now(), raises, d);
        engine.Erase(d);
        todo := todo - {d};
      }
    }

    /** The gates of the withdrawn fibers open: here, the engine drains. */
    method Await(doomed: set<FiberId>, raises: set<FiberId>)
      requires Steady(engine, raises) && Withdrawn(engine.fibers, Now(), doomed)
      modifies engine
      ensures Steady(engine, raises) && Moving(engine.fibers) == {} && Declared() == old(Declared()) && engine.nextId == old(engine.nextId)
      ensures forall d | d in doomed :: d in engine.fibers && engine.fibers[d].state == Inactive
    {
      hide Staffed, Sound, Withdrawing, SameTerms, Moving, Derivable;
      ghost var w := engine.Now();
      ghost var course := Drain(engine, raises);
      SpecsKept(w, engine.Now(), raises);
      SameSpecs(w.fibers, engine.fibers);
      forall d | d in doomed ensures d in engine.fibers && engine.fibers[d].state == Inactive {
        OutRests(engine.Now(), raises, d);
      }
    }

    /** Mounts what is wanted and not there yet. */
    method Install(desired: seq<Desired>, ghost raises: set<FiberId>)
      requires Valid(raises) && DistinctPaths(desired) && Sane(catalog, Wishes(desired))
      requires Checked(Now(), Declared(), Wishes(desired), {}) && Apart(catalog, Now(), Declared(), Wishes(desired))
      modifies this, engine
      ensures Valid(raises) && Converged(Now(), Declared(), Wishes(desired))
      ensures old(Converged(Now(), Declared(), Wishes(desired))) ==> Now() == old(Now()) && engine.Now() == old(engine.Now())
      ensures Extends(old(Now()), Now(), old(engine.nextId))
      ensures Declared().Keys == old(Declared()).Keys + Newcomers(Now(), old(engine.nextId))
    {
      hide Steady, Filed, Apart, Sane, SpecsOf, Wishes, Checked, Extends, Newcomers;
      ghost var wishes := Wishes(desired);
      WishesMade(desired);
      NobodyNew(wishes, raises);
      ExtendsRefl(Now(), engine.nextId);
      for i := 0 to |desired|
        invariant Valid(raises) && Checked(Now(), Declared(), wishes, {}) && Apart(catalog, Now(), Declared(), wishes)
        invariant forall j | 0 <= j < i :: desired[j].path in reconciled
        invariant Extends(old(Now()), Now(), old(engine.nextId)) && engine.nextId >= old(engine.nextId)
        invariant Declared().Keys == old(Declared()).Keys + Newcomers(Now(), old(engine.nextId))
        invariant old(Converged(Now(), Declared(), Wishes(desired))) ==> Now() == old(Now()) && engine.Now() == old(engine.Now())
      {
        if desired[i].path !in reconciled {
          ghost var b := Now();
          Add(desired[i].path, desired[i].want, wishes, raises);
          ExtendsMore(old(Now()), b, Now(), old(engine.nextId), desired[i].path);
        }
      }
      AllMet(Now(), Declared(), desired);
    }

    lemma NobodyNew(wishes: map<Path, Wanted>, raises: set<FiberId>)
      requires Valid(raises) && Checked(Now(), Declared(), wishes, {})
      ensures Newcomers(Now(), engine.nextId) == {}
    {
      hide Sound, Checked, Filed;
      NoNewcomers(engine.Now(), Now(), wishes);
    }

    method Add(path: Path, want: Wanted, ghost wishes: map<Path, Wanted>, ghost raises: set<FiberId>)
      requires Valid(raises) && Sane(catalog, wishes) && path in wishes && wishes[path] == want && path !in reconciled
      requires Checked(Now(), Declared(), wishes, {}) && Apart(catalog, Now(), Declared(), wishes)
      modifies this, engine
      ensures Valid(raises) && Checked(Now(), Declared(), wishes, {}) && Apart(catalog, Now(), Declared(), wishes)
      ensures reconciled.Keys == old(reconciled).Keys + {path} && engine.nextId > old(engine.nextId)
      ensures reconciled == old(reconciled)[path := reconciled[path]] && reconciled[path] == old(engine.nextId)
      ensures Declared().Keys == old(Declared()).Keys + {reconciled[path]}
    {
      hide Staffed, Sound, Withdrawing, Reevaluated, Filed, Checked, Apart, SpecsOf;
      var c := catalog[want.name];
      forall x | x in engine.fibers ensures engine.fibers[x].spec.provide !! c.provide {
        InSpecs(engine.fibers, x);
        Room(catalog, Now(), Declared(), wishes, path, x);
      }
      ghost var v, b, cs := engine.Now(), Now(), Declared();
      var id := engine.Mount(c);
      MountStaffed(v, engine.Now(), raises, id, c);
      InSpecs(v.fibers, id);
      AddStep(catalog, b, cs, wishes, path, id);
      installed := installed[id := want];
      reconciled := reconciled[path := id];
    }

    /**
      Reconciles against a list with distinct paths: afterwards exactly the desired paths are
      reconciled, each to an installed fiber of the desired name and configuration. Where that already
      holds nothing is unloaded and nothing is mounted.
     */
    method Reconcile(desired: seq<Desired>, accepts: (FiberId, string) -> bool, raises: set<FiberId>)
        returns (ghost withdrawn: set<FiberId>, ghost course: seq<Turn>)
      requires Valid(raises) && DistinctPaths(desired) && Sane(catalog, Wishes(desired))
      requires Apart(catalog, Now(), Declared(), Wishes(desired))
      modifies this, engine
      ensures Valid(raises) && Converged(Now(), Declared(), Wishes(desired))
      ensures old(Converged(Now(), Declared(), Wishes(desired))) ==> Now() == old(Now()) && engine.Now() == old(engine.Now())
      ensures forall p | p in Wishes(desired) && old(Meets(Now(), Declared(), p, Wishes(desired)[p])) ::
        p in reconciled && reconciled[p] == old(reconciled)[p]
      ensures Chained(old(engine.Now()), course, Upto(old(engine.Now()), course, |course|))
      ensures Fulfilled(old(Now()), Now(), Wishes(desired), accepts, withdrawn, old(engine.nextId), course)
      ensures engine.fibers.Keys == old(engine.fibers).Keys - withdrawn + Newcomers(Now(), old(engine.nextId))
    {
      hide Steady, Filed, Apart, Sane, SpecsOf, Wishes, Checked, Judged, Chained, Fulfilled, Meets;
      ghost var a, cs := Now(), Declared();
      var doomed;
      doomed, course := Sweep(Wishes(desired), accepts, raises);
      withdrawn := doomed;
      ghost var b := Now();
      BuriedApart(catalog, a, b, cs, Wishes(desired), doomed);
      Bury(doomed, raises);
      Install(desired, raises);
      JudgedFulfilled(a, b, Now(), Wishes(desired), accepts, doomed, old(engine.nextId), course);
      SpecKeys(engine.fibers);
      SpecKeys(old(engine.fibers));
      ChainEnd(old(engine.Now()), course);
    }
  }

  lemma SpecKeys(fs: Pool)
    ensures SpecsOf(fs).Keys == fs.Keys
  {}

  lemma ChainEnd(w0: World, course: seq<Turn>)
    requires exists w :: Chained(w0, course, w)
    ensures Chained(w0, course, Upto(w0, course, |course|))
  {}

  /** While every entry is met, all are of fibers mounted before. */
  lemma NoNewcomers(w: World, b: Book, wishes: map<Path, Wanted>)
    requires Sound(w, REST) && Checked(b, SpecsOf(w.fibers), wishes, {})
    ensures Newcomers(b, w.nextId) == {}
  {
    hide Inv, LogOk, Indexed;
    forall p | p in b.reconciled ensures b.reconciled[p] < w.nextId {
      assert Meets(b, SpecsOf(w.fibers), p, wishes[p]);
    }
  }

  /** With every entry met and every desired path reconciled, nothing is left to do. */
  lemma AllMet(b: Book, cs: Specs, desired: seq<Desired>)
    requires DistinctPaths(desired) && Checked(b, cs, Wishes(desired), {})
    requires forall j | 0 <= j < |desired| :: desired[j].path in b.reconciled
    ensures Converged(b, cs, Wishes(desired))
  {
    hide Wishes, Meets;
    WishesMade(desired);
  }

  lemma InSpecs(fs: Pool, id: FiberId)
    ensures id in SpecsOf(fs) <==> id in fs
    ensures id in fs ==> SpecsOf(fs)[id] == fs[id].spec
  {}

  lemma ConvergedMeets(b: Book, cs: Specs, wishes: map<Path, Wanted>, p: Path)
    ensures Converged(b, cs, wishes) && p in b.reconciled ==> p in wishes && Meets(b, cs, p, wishes[p])
  {}

  lemma SweepStart(catalog: map<string, Component>, a: Book, cs: Specs, wishes: map<Path, Wanted>, fs: Pool)
    ensures Checked(a, cs, wishes, a.reconciled.Keys) && Trimmed(a, a, cs, {}) && Withdrawn(fs, a, {})
  {}

  lemma KnownHere(catalog: map<string, Component>, b: Book, cs: Specs, p: Path)
    requires Filed(catalog, b, cs) && p in b.reconciled && b.reconciled[p] in cs
    ensures b.reconciled[p] in b.installed
  {
    assert Known(catalog, b, cs, b.reconciled[p]);
  }

  lemma WithdrawnLess(fs: Pool, b: Book, doomed: set<FiberId>, p: Path)
    requires Withdrawn(fs, b, doomed)
    ensures Withdrawn(fs, b.(reconciled := b.reconciled - {p}), doomed)
  {
    FewerValues(b.reconciled, p);
  }

  lemma FewerValues(m: map<Path, FiberId>, p: Path)
    ensures (m - {p}).Values <= m.Values
  {
    forall x | x in (m - {p}).Values ensures x in m.Values {
      var q :| q in m - {p} && (m - {p})[q] == x;
      assert m[q] == x;
    }
  }

  lemma WithdrawnSame(fs: Pool, b: Book, doomed: set<FiberId>, want: Wanted, id: FiberId)
    requires Withdrawn(fs, b, doomed)
    ensures Withdrawn(fs, b.(installed := b.installed[id := want]), doomed)
  {}

  lemma WithdrawnMore(fs: Pool, gs: Pool, b: Book, doomed: set<FiberId>, p: Path)
    requires Withdrawn(fs, b, doomed) && p in b.reconciled
    requires forall x | x in fs && fs[x].reactivate == -1 :: x in gs && gs[x].reactivate == -1
    requires b.reconciled[p] in gs && gs[b.reconciled[p]].reactivate == -1
    requires b.reconciled[p] !in (b.reconciled - {p}).Values
    ensures Withdrawn(gs, b.(reconciled := b.reconciled - {p}), doomed + {b.reconciled[p]})
  {
    FewerValues(b.reconciled, p);
  }
}
