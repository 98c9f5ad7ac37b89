/**
  The reference machine (proof/oracle/oracle.hpp). Every operation runs it to its fixpoint: all
  cascades, notifications and pending applies complete before the next one begins. Ordered sets and maps
  are iterated in ascending order.
 */
module OracleMachine {
  import opened Oracle
  import opened OracleSteps
  import opened OracleHandlers
  import opened OracleMeasure
  import opened OracleImage
  import opened Basics
  import F = Frames

  /** Every required key resolves and the view is the whole resolution. */
  ghost predicate AtTarget(s: Moment, x: FiberId) {
    && x in s.fibers && Known(s, x) && Satisfiable(s.bonds, x, PartOf(s, x))
    && s.fibers[x].committed == Resolution(s.bonds, x, PartOf(s, x))
  }

  /** What evaluating an inactive fiber makes of the machine. */
  ghost predicate Reconsidered(v: Moment, w: Moment, id: FiberId) {
    && id in v.fibers && Known(v, id)
    && var f := v.fibers[id];
       if f.reactivate >= 0 && !f.applyFailed && Satisfiable(v.bonds, id, PartOf(v, id)) then w == AfterStart(v, id)
       else w == v.(fibers := v.fibers[id := f.(hasError := f.hasError || f.reactivate >= 0)])
  }

  ghost function GuardsOf(s: Moment, id: FiberId): (n: nat)
    requires id in s.fibers
    ensures n == |Guards(s.fibers, s.fibers[id].consumers)| <= |s.fibers|
  {
    SubsetSize(Guards(s.fibers, s.fibers[id].consumers), s.fibers.Keys);
    |Guards(s.fibers, s.fibers[id].consumers)|
  }

  lemma ConsumersStay(s: Moment, w: Moment, id: FiberId)
    requires Wired(s) && id in s.fibers && s.low < Rank(s, id) && Follows(s, w, {})
    ensures forall c | c in s.fibers[id].consumers :: w.low < Rank(w, c)
  {
    hide Wired;
    ConsumersAbove(s, id);
    assert forall c :: Rank(w, c) == Rank(s, c);
  }

  lemma OneGuard(fibers: map<FiberId, Fiber>, consumers: set<FiberId>, c: FiberId)
    requires c !in consumers
    ensures |Guards(fibers, consumers + {c})| == |Guards(fibers, consumers)| + if c in fibers && fibers[c].state != Inactive then 1 else 0
  {
    if c in fibers && fibers[c].state != Inactive {
      assert Guards(fibers, consumers + {c}) == Guards(fibers, consumers) + {c};
    } else {
      assert Guards(fibers, consumers + {c}) == Guards(fibers, consumers);
    }
  }

  /** Every installed fiber holds the slot it was mounted in, and nobody else does. */
  predicate Seated(slotOf: map<Slot, FiberId>, fibers: map<FiberId, Fiber>) {
    && (forall s | s in slotOf :: slotOf[s] in fibers && fibers[slotOf[s]].slot == s)
    && (forall x | x in fibers :: fibers[x].slot in slotOf && slotOf[fibers[x].slot] == x)
  }

  lemma SeatedKept(slotOf: map<Slot, FiberId>, v: Moment, w: Moment)
    requires Seated(slotOf, v.fibers) && SameCast(v, w)
    ensures Seated(slotOf, w.fibers)
  {}

  lemma SeatedMore(slotOf: map<Slot, FiberId>, fibers: map<FiberId, Fiber>, id: FiberId, f: Fiber)
    requires Seated(slotOf, fibers) && id !in fibers && f.slot !in slotOf
    ensures Seated(slotOf[f.slot := id], fibers[id := f])
  {}

  lemma SeatedLess(slotOf: map<Slot, FiberId>, fibers: map<FiberId, Fiber>, id: FiberId)
    requires Seated(slotOf, fibers) && id in fibers
    ensures Seated(slotOf - {fibers[id].slot}, fibers - {id})
  {}

  /** Who sits in a slot. */
  datatype Seat = Seat(fiber: FiberId, part: char, config: string)

  function Seats(slotOf: map<Slot, FiberId>, fibers: map<FiberId, Fiber>): map<Slot, Seat> {
    map s | s in slotOf && slotOf[s] in fibers :: Seat(slotOf[s], fibers[slotOf[s]].part, fibers[slotOf[s]].config)
  }

  lemma SeatOf(slotOf: map<Slot, FiberId>, fibers: map<FiberId, Fiber>)
    requires Seated(slotOf, fibers)
    ensures Seats(slotOf, fibers).Keys == slotOf.Keys
    ensures forall s | s in slotOf ::
      slotOf[s] in fibers && Seats(slotOf, fibers)[s] == Seat(slotOf[s], fibers[slotOf[s]].part, fibers[slotOf[s]].config)
  {
    assert forall s :: s in Seats(slotOf, fibers) <==> s in slotOf;
  }

  lemma NoSeat(slotOf: map<Slot, FiberId>, fibers: map<FiberId, Fiber>, slot: Slot)
    requires slot !in slotOf
    ensures Seats(slotOf, fibers) - {slot} == Seats(slotOf, fibers)
  {}

  lemma SeatsKept(slotOf: map<Slot, FiberId>, v: Moment, w: Moment)
    requires SameCast(v, w)
    ensures Seats(slotOf, w.fibers) == Seats(slotOf, v.fibers)
  {}

  lemma SeatsMore(slotOf: map<Slot, FiberId>, fibers: map<FiberId, Fiber>, id: FiberId, f: Fiber)
    requires Seated(slotOf, fibers) && id !in fibers && f.slot !in slotOf
    ensures Seats(slotOf[f.slot := id], fibers[id := f]) == Seats(slotOf, fibers)[f.slot := Seat(id, f.part, f.config)]
  {
    var a, b := Seats(slotOf[f.slot := id], fibers[id := f]), Seats(slotOf, fibers)[f.slot := Seat(id, f.part, f.config)];
    SeatedMore(slotOf, fibers, id, f);
    SeatOf(slotOf, fibers);
    SeatOf(slotOf[f.slot := id], fibers[id := f]);
    assert a.Keys == b.Keys;
    assert forall s | s in a :: a[s] == b[s];
  }

  lemma SeatsLess(slotOf: map<Slot, FiberId>, fibers: map<FiberId, Fiber>, slot: Slot)
    requires Seated(slotOf, fibers) && slot in slotOf
    ensures Seats(slotOf - {slot}, fibers - {slotOf[slot]}) == Seats(slotOf, fibers) - {slot}
  {
    var a, b := Seats(slotOf - {slot}, fibers - {slotOf[slot]}), Seats(slotOf, fibers) - {slot};
    assert forall s | s in slotOf && s != slot :: slotOf[s] != slotOf[slot];
    assert a.Keys == b.Keys;
    assert forall s | s in a :: a[s] == b[s];
  }

  lemma SeatsNamed(slotOf: map<Slot, FiberId>, fibers: map<FiberId, Fiber>, slot: Slot, config: string)
    requires Seated(slotOf, fibers) && slot in slotOf
    ensures
      var id := slotOf[slot];
      var gs := fibers[id := fibers[id].(config := config)];
      Seated(slotOf, gs) && Seats(slotOf, gs) == Seats(slotOf, fibers)[slot := Seats(slotOf, fibers)[slot].(config := config)]
  {
    var gs := fibers[slotOf[slot] := fibers[slotOf[slot]].(config := config)];
    var a, b := Seats(slotOf, gs), Seats(slotOf, fibers)[slot := Seats(slotOf, fibers)[slot].(config := config)];
    assert forall s | s in slotOf && s != slot :: slotOf[s] != slotOf[slot];
    assert a.Keys == b.Keys;
    assert forall s | s in a :: a[s] == b[s];
  }

  lemma ProgressCast(s: Moment, w: Moment)
    requires Progress(s, w)
    ensures SameCast(s, w)
  {}

  lemma LowQueued(s: Moment, low: nat)
    ensures Queued(s.(low := low)) == Queued(s)
  {}

  lemma KnownRank(s: Moment, x: FiberId)
    requires Wired(s) && x in s.fibers
    ensures 0 < Rank(s, x)
  {
    KnownFiber(s, x);
  }

  predicate NamedOutside(view: map<Key, FiberId>, todo: set<Key>, p: FiberId) {
    exists k :: k in view && k !in todo && view[k] == p
  }

  /** An apply that failed, was cancelled or is stale rests; only a stale one is considered again. */
  ghost predicate Landing(s: Moment, w: Moment, id: FiberId, failure: bool) {
    && s.work != [] && id in s.fibers
    && var v := AfterLand(s, id, Landed(s.fibers[id], failure));
       if !Live(s.bonds, s.fibers[id].committed) && s.fibers[id].reactivate >= 0 then Reconsidered(v, w, id) else w == v
  }

  /** Any other apply publishes, and whoever declares one of its keys is notified. */
  ghost predicate Publishing(s: Moment, w: Moment, id: FiberId) {
    s.work != [] && id in s.fibers && Known(s, id) && Follows(AfterEnlist(AfterPublish(s, id), id), w, {})
  }

  lemma LandOutcome(s: Moment, w: Moment, id: FiberId, failure: bool)
    requires Wired(s) && Popping(s, id) && Wired(w) && Landing(s, w, id, failure)
    ensures Progress(s, w) && (Queued(s) ==> Queued(w))
  {
    hide Wired, Follows, Rank, Queued, Progress, Live, Unbind, Satisfiable, AfterStart, Popped;
    var g := Landed(s.fibers[id], failure);
    var v := AfterLand(s, id, g);
    LandWired(s, id, g);
    FollowsRefl(w);
    if w == AfterStart(v, id) && !Live(s.bonds, s.fibers[id].committed) {
      LandReload(s, id, g);
      StartPhases(v, id);
    } else {
      assert w == AfterLand(s, id, w.fibers[id]) by {
        assert v.fibers[id := w.fibers[id]] == s.fibers[id := w.fibers[id]];
      }
      LandPop(s, id, w.fibers[id]);
      LandWired(s, id, w.fibers[id]);
    }
    PopProgress(s, w, w, id);
  }

  lemma NamedNext(view: map<Key, FiberId>, todo: set<Key>, k: Key)
    requires k in view && k in todo
    ensures forall p :: NamedOutside(view, todo - {k}, p) <==> NamedOutside(view, todo, p) || p == view[k]
  {
    forall p | p == view[k] ensures NamedOutside(view, todo - {k}, p) {
      assert k in view && k !in todo - {k};
    }
  }

  lemma NamedNone(view: map<Key, FiberId>)
    ensures forall p :: !NamedOutside(view, view.Keys, p)
  {}

  lemma EnlistedAll(s: Moment, w: Moment, id: FiberId)
    requires id in s.fibers && w == s.(fibers := w.fibers) && w.fibers.Keys == s.fibers.Keys
    requires forall p | p in w.fibers ::
      w.fibers[p] == if NamedOutside(s.fibers[id].committed, {}, p) then s.fibers[p].(consumers := s.fibers[p].consumers + {id}) else s.fibers[p]
    ensures w == AfterEnlist(s, id)
  {
    assert forall p :: NamedOutside(s.fibers[id].committed, {}, p) <==> p in s.fibers[id].committed.Values;
  }

  predicate Declares(parts: Parts, made: map<FiberId, char>, c: FiberId, k: Key) {
    c in made && made[c] in parts && k in parts[made[c]].Keys()
  }

  ghost predicate Declarers(parts: Parts, made: map<FiberId, char>, index: map<Key, seq<FiberId>>) {
    forall k | k in index :: forall c | c in index[k] :: Declares(parts, made, c, k)
  }

  lemma DeclarersMore(parts: Parts, made: map<FiberId, char>, index: map<Key, seq<FiberId>>, id: FiberId, part: char)
    requires Declarers(parts, made, index) && id !in made
    ensures Declarers(parts, made[id := part], index)
  {
    forall k, c | k in index && c in index[k] ensures Declares(parts, made[id := part], c, k) {
      assert Declares(parts, made, c, k);
    }
  }

  lemma DeclarersLess(parts: Parts, made: map<FiberId, char>, index: map<Key, seq<FiberId>>, id: FiberId)
    requires Declarers(parts, made, index)
    ensures Declarers(parts, made, map k | k in index :: Without(index[k], id))
  {}

  function FailingOf(parts: Parts, fibers: map<FiberId, Fiber>): set<FiberId> {
    set x | x in fibers && fibers[x].part in parts && parts[fibers[x].part].fails
  }

  lemma FailingMore(parts: Parts, fibers: map<FiberId, Fiber>, id: FiberId, f: Fiber)
    requires id !in fibers && f.part in parts
    ensures FailingOf(parts, fibers[id := f]) == FailingOf(parts, fibers) + if parts[f.part].fails then {id} else {}
  {}

  lemma FailingLess(parts: Parts, fibers: map<FiberId, Fiber>, id: FiberId)
    ensures FailingOf(parts, fibers - {id}) == FailingOf(parts, fibers) - {id}
  {}

  class Machine {
    const parts: Parts
    var fibers: map<FiberId, Fiber>
    var slotOf: map<Slot, FiberId>
    var reconciled: set<Slot>
    var nextId: FiberId
    var bonds: Bonds
    var consumersOf: map<Key, seq<FiberId>>
    var work: seq<FiberId>
    var log: seq<Entry>
    ghost var made: map<FiberId, char>
    ghost var rank: map<FiberId, nat>
    ghost var idle: set<FiberId>
    ghost var low: nat
    ghost var marks: seq<F.Mark>

    ghost function Now(): Moment
      reads this`rank, this`idle, this`fibers, this`made, this`bonds, this`work, this`low
    {
      Moment(parts, rank, idle, made, fibers, bonds, work, low)
    }

    /** The registry of declared keys lists declarers only. */
    ghost predicate Registered()
      reads this`consumersOf, this`made
    {
      Declarers(parts, made, consumersOf)
    }

    /** The log is what the components wrote. */
    ghost predicate Written()
      reads this`log, this`marks, this`made
    {
      log == Render(parts, made, marks) && forall i | 0 <= i < |marks| :: marks[i].id in made
    }

    ghost predicate Running()
      reads this`consumersOf, this`rank, this`idle, this`fibers, this`made, this`bonds, this`work, this`low, this`log, this`marks
    {
      Wired(Now()) && Registered() && Written()
    }

    ghost function Image(): F.Snap
      reads this
    {
      ImageOf(Now(), marks)
    }

    /** The components are plain and the registry is complete. */
    ghost predicate Tidy()
      reads this
    {
      (forall c | c in parts :: Plain(parts[c])) && Listing(consumersOf, parts, made, fibers.Keys)
    }

    ghost predicate Ready()
      reads this`consumersOf, this`slotOf, this`nextId, this`rank, this`idle, this`fibers, this`made, this`bonds, this`work, this`low,
            this`log, this`marks
    {
      Running() && Queued(Now()) && Seated(slotOf, fibers) && (forall x | x in made :: x < nextId)
    }

    /** Between operations no apply is pending. */
    ghost predicate Valid()
      reads this`consumersOf, this`slotOf, this`nextId, this`rank, this`idle, this`fibers, this`made, this`bonds, this`work, this`low,
            this`log, this`marks
    {
      Ready() && work == []
    }

    constructor (pool: Parts)
      ensures Valid() && parts == pool && fibers == map[] && slotOf == map[] && reconciled == {} && log == []
      ensures nextId == 1 && marks == [] && bonds == map[] && ((forall c | c in pool :: Plain(pool[c])) ==> Tidy())
    {
      parts := pool;
      fibers, slotOf, reconciled, nextId := map[], map[], {}, 1;
      bonds, consumersOf, work, log := map[], map[], [], [];
      made, rank, idle, low, marks := map[], map[], {}, 0, [];
    }

    // -------------------------------------------------------------------------------------------
    // Resolution

    method CheckSatisfiable(id: FiberId) returns (ok: bool, providers: map<Key, FiberId>)
      requires Wired(Now()) && id in fibers && Known(Now(), id)
      ensures ok <==> Satisfiable(bonds, id, PartOf(Now(), id))
      ensures ok ==> providers == Resolution(bonds, id, PartOf(Now(), id))
    {
      hide Wired;
      KnownPart(Now(), id);
      var inject := parts[fibers[id].part].inject;
      assert inject == PartOf(Now(), id).inject;
      providers := map[];
      for i := 0 to |inject|
        invariant forall j | 0 <= j < i && inject[j].required :: Resolves(bonds, id, inject[j].key)
        invariant forall k | k in providers ::
          Resolves(bonds, id, k) && providers[k] == bonds[k].provider && k in PartOf(Now(), id).Keys()
        invariant forall j | 0 <= j < i && Resolves(bonds, id, inject[j].key) :: inject[j].key in providers
      {
        var key, required := inject[i].key, inject[i].required;
        if Resolves(bonds, id, key) {
          providers := providers[key := bonds[key].provider];
        } else if required {
          assert key in PartOf(Now(), id).RequiredKeys();
          return false, providers;
        }
      }
      return true, providers;
    }

    method ProvidersStillActive(id: FiberId) returns (ok: bool)
      requires id in fibers
      ensures ok <==> Live(bonds, fibers[id].committed)
    {
      var todo := fibers[id].committed.Keys;
      while todo != {}
        invariant todo <= fibers[id].committed.Keys
        invariant forall k | k in fibers[id].committed && k !in todo ::
          k in bonds && bonds[k].provider == fibers[id].committed[k] && !bonds[k].retiring
      {
        var k :| k in todo;
        if k !in bonds || bonds[k].provider != fibers[id].committed[k] || bonds[k].retiring {
          return false;
        }
        todo := todo - {k};
      }
      return true;
    }

    // -------------------------------------------------------------------------------------------
    // The re-entrant cascade

    /** Re-evaluates a fiber against its target; returns at once while it is in motion. */
    method Evaluate(id: FiberId)
      requires Running() && id in fibers
      requires fibers[id].state == Active ==> low < Rank(Now(), id)
      modifies this`fibers, this`bonds, this`work, this`log, this`marks, this`low
      ensures Running() && Sinks(old(Now()), Now())
      ensures old(low < Rank(Now(), id) || fibers[id].state != Inactive) ==> Follows(old(Now()), Now(), {})
      ensures old(fibers[id].state) == Inactive ==> Reconsidered(old(Now()), Now(), id) && log == old(log)
      ensures old(fibers[id].state == Active && fibers[id].reactivate >= 0 && !AtTarget(Now(), id)) ==> id !in Actives(Now())
      ensures old(fibers[id].state != Inactive && !(fibers[id].state == Active && fibers[id].reactivate >= 0 && !AtTarget(Now(), id))) ==>
        Now() == old(Now())
      ensures old(log) <= log
      ensures old(Tidy()) ==> F.Comes(old(Image()), [F.Eval(id)], Image(), [])
      decreases Actives(Now()), Leaving(Now()), 3
    {
      hide Wired, Follows, Resolution, Satisfiable, Rank, Actives, Leaving, ImageOf, F.Step, F.Comes, Listing, Render;
      ghost var tidy, v := Tidy(), Image();
      KnownFiber(Now(), id);
      FollowsRefl(Now());
      EvalImage(Now(), marks, id);
      if fibers[id].state != Inactive && fibers[id].state != Active {
        F.Ends(v, F.Eval(id), v);
        return;
      }
      if fibers[id].reactivate < 0 {
        F.Ends(v, F.Eval(id), v);
        return;
      }
      var sat, providers := CheckSatisfiable(id);
      if fibers[id].state == Inactive {
        if sat && !fibers[id].applyFailed {
          AbleSatisfied(Now(), id);
          StartLoading(id, providers);
        } else if !fibers[id].hasError {
          TouchStep(Now(), id, fibers[id].(hasError := true));
          fibers := fibers[id := fibers[id].(hasError := true)];
        } else {
          assert fibers == fibers[id := fibers[id].(hasError := true)];
        }
        F.Ends(v, F.Eval(id), Image());
        return;
      }
      if sat && providers == fibers[id].committed {
        F.Ends(v, F.Eval(id), v);
        return;
      }
      BeginUnload(id, sat);
      if tidy {
        F.Calls(v, F.Eval(id), v, [F.Unload(id, sat)], Image());
      }
    }

    method StartLoading(id: FiberId, providers: map<Key, FiberId>)
      requires Running() && id in fibers && Able(Now(), id) && fibers[id].state == Inactive
      requires providers == Resolution(bonds, id, PartOf(Now(), id))
      modifies this`fibers, this`work
      ensures Running() && Sinks(old(Now()), Now())
      ensures old(low < Rank(Now(), id)) ==> Follows(old(Now()), Now(), {})
      ensures Now() == AfterStart(old(Now()), id)
    {
      hide Wired, Follows, Rank, Resolution, Sinks;
      StartStep(Now(), id);
      fibers := fibers[id := fibers[id].(state := Loading, hasError := false, applyFailed := false, committed := providers)];
      work := work + [id];
    }

    /** Unloads a fiber, its consumers first. */
    method BeginUnload(id: FiberId, flag: bool)
      requires Running() && id in fibers && low < Rank(Now(), id)
      modifies this`fibers, this`bonds, this`work, this`log, this`marks, this`low
      ensures Running() && Follows(old(Now()), Now(), {}) && old(log) <= log
      ensures old(fibers[id].state) == Active ==> Actives(Now()) < Actives(old(Now()))
      ensures id !in Actives(Now())
      ensures old(fibers[id].state) == Active ==> forall c | c in old(fibers)[id].consumers :: c !in Actives(Now())
      ensures old(fibers[id].state) != Active ==>
        Now() == old(Now()).(fibers := old(fibers)[id := Diverted(Raised(old(fibers)[id], flag))])
      ensures old(Tidy()) ==> F.Comes(old(Image()), [F.Unload(id, flag)], Image(), [])
      decreases Actives(Now()), Leaving(Now()), 2
    {
      hide Wired, Follows, Rank, Actives, Leaving, Registered, Known, ImageOf, F.Comes, Listing, Written, Diverted, Sinks, SameCast;
      ghost var tidy, v0 := Tidy(), Image();
      ghost var s0 := Now();
      RaiseFlag(id, flag);
      ghost var s1 := Now();
      ghost var v1 := Image();
      SameRank(s0, s1, id);
      SameMembers(s0, s1, {});
      if fibers[id].state == Active {
        SameMoves(s0, s1);
        UnloadActive(id);
      } else {
        Divert(id);
        assert fibers == s0.fibers[id := Diverted(Raised(s0.fibers[id], flag))];
      }
      if tidy {
        F.ComesTrans(v0, [F.Unload(id, flag)], v1, [F.Unload(id, false)], Image(), []);
      }
      FollowsTrans(s0, s1, Now(), {});
    }

    /** A pending apply will complete cancelled; a fiber at rest or on its way out stays so. */
    method Divert(id: FiberId)
      requires Running() && id in fibers && low < Rank(Now(), id) && fibers[id].state != Active
      modifies this`fibers
      ensures Running() && Follows(old(Now()), Now(), {}) && id !in Actives(Now())
      ensures fibers == old(fibers)[id := Diverted(old(fibers)[id])]
      ensures F.Comes(old(Image()), [F.Unload(id, false)], Image(), [])
    {
      hide Wired, Follows, Rank, ImageOf, F.Comes, F.Step;
      FollowsRefl(Now());
      ghost var v := Image();
      DivertImage(Now(), marks, id);
      F.Ends(v, F.Unload(id, false), ImageOf(Now().(fibers := fibers[id := Diverted(fibers[id])]), marks));
      if fibers[id].state == Loading {
        DivertStep(Now(), id, fibers[id].(state := Unloading));
        fibers := fibers[id := fibers[id].(state := Unloading)];
      }
    }

    method RaiseFlag(id: FiberId, flag: bool)
      requires Running() && id in fibers
      modifies this`fibers
      ensures Running() && Follows(old(Now()), Now(), {}) && Sinks(old(Now()), Now())
      ensures fibers == old(fibers)[id := Raised(old(fibers)[id], flag)]
      ensures F.Comes(old(Image()), [F.Unload(id, flag)], Image(), [F.Unload(id, false)])
    {
      hide Wired, Follows, Sinks, ImageOf, F.Comes;
      RaiseImage(Now(), marks, id, flag);
      if fibers[id].reactivate >= 0 {
        var raised := if flag && fibers[id].reactivate < 1 then 1 else fibers[id].reactivate;
        TouchStep(Now(), id, fibers[id].(reactivate := raised));
        fibers := fibers[id := fibers[id].(reactivate := raised)];
      } else {
        FollowsRefl(Now());
      }
    }

    /** The part of begin_unload past its early returns. */
    method UnloadActive(id: FiberId)
      requires Running() && id in fibers && low < Rank(Now(), id) && fibers[id].state == Active
      modifies this`fibers, this`bonds, this`work, this`log, this`marks, this`low
      ensures Running() && Follows(old(Now()), Now(), {}) && Actives(Now()) < Actives(old(Now()))
      ensures id !in Actives(Now()) && old(log) <= log
      ensures forall c | c in old(fibers)[id].consumers :: c !in Actives(Now())
      ensures old(Tidy()) ==> F.Comes(old(Image()), [F.Unload(id, false)], Image(), [])
      decreases Actives(Now()), Leaving(Now()), 1
    {
      hide Wired, Follows, Rank, Actives, Leaving, Credit, Registered, ImageOf, F.Step, F.Comes, Listing, Written;
      ghost var s0 := Now();
      ghost var tidy, v0 := Tidy(), Image();
      var consumers := Flip(id);
      ghost var s1 := Now();
      ghost var v1 := Image();
      SameMembers(s0, s1, {});
      UnloadConsumers(consumers);
      ghost var s2 := Now();
      ghost var v2 := Image();
      SameMembers(s1, s2, {});
      FewerActives(s1, s2, {});
      MaybeFinish(id);
      FewerActives(s2, Now(), {id});
      FollowsLast(s1, s2, Now(), {id});
      PayBack(s0, s1, Now(), id);
      FewerActives(s1, Now(), {id});
      if tidy {
        F.CallsTwo(v0, F.Unload(id, false), v1, F.UnloadEach(consumers), v2, F.MaybeFinish(id), Image());
      }
    }

    /** The flip as a step: no guard is counted that the fiber had no credit for. */
    method Flip(id: FiberId) returns (consumers: set<FiberId>)
      requires Running() && id in fibers && low < Rank(Now(), id) && fibers[id].state == Active
      modifies this`fibers, this`bonds
      ensures Running() && Follows(old(Now()), Now(), {}) && Actives(Now()) < Actives(old(Now()))
      ensures id in fibers && id !in Actives(Now()) && Credit(Now(), id) + 1 <= old(Credit(Now(), id))
      ensures consumers == old(fibers)[id].consumers && forall c | c in consumers :: low < Rank(Now(), c)
      ensures F.Step(old(Image()), F.Unload(id, false)) == (Image(), [F.UnloadEach(consumers), F.MaybeFinish(id)])
    {
      hide Wired, Follows, Rank, Actives, Leaving, Credit, Sinks, RetireBonds, Known, Registered, ImageOf, F.Step, Written;
      ghost var s0 := Now();
      FlipImage(s0, marks, id);
      ConsumersAbove(s0, id);
      KnownPart(s0, id);
      OwnBonds(s0, id);
      ghost var guards := GuardsOf(s0, id);
      FlipStep(s0, id, guards);
      consumers := MarkUnloading(id);
      NotActive(Now(), id);
      ConsumersStay(s0, Now(), id);
    }

    /** Flips the fiber and its bonds, and counts the guards over the copied consumers. */
    method MarkUnloading(id: FiberId) returns (consumers: set<FiberId>)
      requires id in fibers && fibers[id].state == Active && fibers[id].part in parts
      requires forall k | k in bonds && bonds[k].provider == id :: k in parts[fibers[id].part].provide
      modifies this`fibers, this`bonds
      ensures consumers == old(fibers)[id].consumers
      ensures
        var f := old(fibers)[id];
        fibers == old(fibers)[id := f.(state := Unloading, remaining := f.remaining + |Guards(old(fibers), f.consumers)|)]
      ensures bonds == RetireBonds(old(bonds), id)
    {
      hide RetireBonds, Guards;
      consumers := fibers[id].consumers;
      var guards := CountGuards(consumers);
      fibers := fibers[id := fibers[id].(state := Unloading)];
      RetireProvisions(id);
      fibers := fibers[id := fibers[id].(remaining := fibers[id].remaining + guards)];
    }

    method CountGuards(consumers: set<FiberId>) returns (guards: nat)
      ensures guards == |Guards(fibers, consumers)| <= |fibers|
    {
      guards := 0;
      var todo := consumers;
      while todo != {}
        invariant todo <= consumers && guards == |Guards(fibers, consumers - todo)|
      {
        var c :| c in todo;
        OneGuard(fibers, consumers - todo, c);
        assert consumers - (todo - {c}) == consumers - todo + {c};
        if c in fibers && fibers[c].state != Inactive {
          guards := guards + 1;
        }
        todo := todo - {c};
      }
      assert consumers - todo == consumers;
      SubsetSize(Guards(fibers, consumers), fibers.Keys);
    }

    method RetireProvisions(id: FiberId)
      requires id in fibers && fibers[id].part in parts
      requires forall k | k in bonds && bonds[k].provider == id :: k in parts[fibers[id].part].provide
      modifies this`bonds
      ensures bonds == RetireBonds(old(bonds), id)
    {
      var provide := parts[fibers[id].part].provide;
      for i := 0 to |provide|
        invariant bonds.Keys == old(bonds).Keys
        invariant forall k | k in bonds ::
          bonds[k] == if old(bonds)[k].provider == id && k in provide[..i] then old(bonds)[k].(retiring := true) else old(bonds)[k]
      {
        var key := provide[i];
        assert provide[..i + 1] == provide[..i] + [key];
        if key in bonds && bonds[key].provider == id {
          bonds := bonds[key := bonds[key].(retiring := true)];
        }
      }
      assert provide[..|provide|] == provide;
    }

    /** The cascade over a copy of the consumer set. */
    method UnloadConsumers(consumers: set<FiberId>)
      requires Running()
      requires forall c | c in consumers && c in fibers :: low < Rank(Now(), c)
      modifies this`fibers, this`bonds, this`work, this`log, this`marks, this`low
      ensures Running() && Follows(old(Now()), Now(), {}) && old(log) <= log
      ensures forall c | c in consumers :: c !in Actives(Now())
      ensures old(Tidy()) ==> F.Comes(old(Image()), [F.UnloadEach(consumers)], Image(), [])
      decreases Actives(Now()), fibers.Keys, 4
    {
      hide Wired, Follows, Rank, Actives, ImageOf, F.Step, F.Comes, Listing, Render;
      ghost var s0 := Now();
      ghost var tidy, v0 := Tidy(), Image();
      FollowsRefl(s0);
      F.ComesRefl(v0, [F.UnloadEach(consumers)]);
      var todo := consumers;
      while todo != {}
        invariant todo <= consumers && Running() && Follows(s0, Now(), {}) && old(log) <= log
        invariant forall c | c in consumers && c !in todo :: c !in Actives(Now())
        invariant tidy ==> F.Comes(v0, [F.UnloadEach(consumers)], Image(), [F.UnloadEach(todo)])
      {
        HasLeast(todo);
        var c :| c in todo && IsLeast(todo, c);
        ghost var s := Now();
        ghost var v := Image();
        SameMembers(s0, s, {});
        FewerActives(s0, s, {});
        F.UnloadEachStep(v, todo, c);
        if c in fibers {
          SameRank(s0, s, c);
          BeginUnload(c, true);
          FollowsTrans(s0, s, Now(), {});
          FewerActives(s, Now(), {});
        } else {
          NotActive(s, c);
          GoneUnload(s, marks, c, true);
          F.Ends(v, F.Unload(c, true), v);
        }
        if tidy {
          F.Turn(v, F.UnloadEach(todo), F.Unload(c, true), F.UnloadEach(todo - {c}), Image());
          F.ComesTrans(v0, [F.UnloadEach(consumers)], v, [F.UnloadEach(todo)], Image(), [F.UnloadEach(todo - {c})]);
        }
        todo := todo - {c};
      }
      F.Ends(Image(), F.UnloadEach({}), Image()) by { F.UnloadEachNone(Image()); }
      if tidy {
        F.ComesTrans(v0, [F.UnloadEach(consumers)], Image(), [F.UnloadEach({})], Image(), []);
      }
    }

    method MaybeFinish(id: FiberId)
      requires Running() && id in fibers
      modifies this`fibers, this`bonds, this`work, this`log, this`marks, this`low
      ensures Running() && Follows(old(Now()), Now(), {id}) && Sinks(old(Now()), Now()) && old(log) <= log
      ensures
        if old(fibers[id].state == Unloading && fibers[id].remaining == 0) then TornDown(old(fibers[id].part), old(log), log)
        else Now() == old(Now()) && log == old(log)
      ensures old(Tidy()) ==> F.Comes(old(Image()), [F.MaybeFinish(id)], Image(), [])
      decreases Actives(Now()), Leaving(Now()), 2
    {
      hide Wired, Follows, Rank, Actives, Leaving, ImageOf, F.Step, F.Comes, Listing, Render;
      ghost var tidy, v := Tidy(), Image();
      FollowsRefl(Now());
      FollowsWiden(Now(), Now(), {id});
      MaybeFinishImage(Now(), marks, id);
      if fibers[id].state == Unloading && fibers[id].remaining == 0 {
        Finish(id);
        if tidy {
          F.Calls(v, F.MaybeFinish(id), v, [F.Finish(id)], Image());
        }
      } else {
        F.Ends(v, F.MaybeFinish(id), v);
      }
    }

    /** The teardown is the next thing in the log, if it leaves a mark there at all. */
    predicate TornDown(part: char, before: seq<Entry>, after: seq<Entry>) {
      part in parts && before + (if parts[part].fails then [] else [Cleaned(parts[part].name)]) <= after
    }

    method Teardown(id: FiberId)
      requires Running() && id in fibers
      modifies this`bonds, this`log, this`marks
      ensures bonds == Unbind(old(bonds), id)
      ensures var part := parts[fibers[id].part]; log == if part.fails then old(log) else old(log) + [Cleaned(part.name)]
      ensures marks == old(marks) + [F.Cleaned(id)] && Written()
    {
      hide Wired, Registered, Render;
      RenderSnoc(parts, made, marks, F.Cleaned(id));
      KnownPart(Now(), id);
      assert id in made;
      OwnBonds(Now(), id);
      var part := parts[fibers[id].part];
      for i := 0 to |part.provide|
        invariant log == old(log) && marks == old(marks)
        invariant forall k | k in bonds :: k in old(bonds) && bonds[k] == old(bonds)[k]
        invariant forall k | k in old(bonds) :: k in bonds <==> !(old(bonds)[k].provider == id && k in part.provide[..i])
      {
        var key := part.provide[i];
        assert part.provide[..i + 1] == part.provide[..i] + [key];
        if key in bonds && bonds[key].provider == id {
          bonds := bonds - {key};
        }
      }
      assert part.provide[..|part.provide|] == part.provide;
      if !part.fails {
        log := log + [Cleaned(part.name)];
      }
      assert old(log) + [] == old(log);
      marks := marks + [F.Cleaned(id)];
    }

    /** Teardown, then the guards of the providers, then the notifications, then re-entry. */
    method Finish(id: FiberId)
      requires Running() && id in fibers && fibers[id].state == Unloading && fibers[id].remaining == 0
      modifies this`fibers, this`bonds, this`work, this`log, this`marks, this`low
      ensures Running() && Follows(old(Now()), Now(), {id}) && Sinks(old(Now()), Now())
      ensures TornDown(old(fibers[id].part), old(log), log)
      ensures old(Tidy()) ==> F.Comes(old(Image()), [F.Finish(id)], Image(), [])
      decreases Actives(Now()), Leaving(Now()), 1
    {
      hide Wired, Follows, Rank, Actives, Leaving, AfterTeardown, Sinks, ImageOf, F.Step, F.Comes, Listing, Render;
      ghost var s0 := Now();
      ghost var tidy, v0 := Tidy(), Image();
      FinishImage(s0, marks, id);
      AbleFiber(s0, id);
      TeardownStep(s0, id);
      ghost var provide := PartOf(s0, id).Spec().provide;
      var committed := Rest(id);
      ghost var s1 := Now();
      ghost var v1 := Image();
      SameMembers(s0, s1, {id});
      Unwind(id, committed, provide);
      ghost var v3 := Image();
      SameMembers(s1, Now(), {});
      ReenterImage(Now(), marks, id);
      if fibers[id].reactivate > 0 {
        ghost var s3 := Now();
        SameMoves(s1, s3);
        Reenter(id, s0, s1);
        SinksTrans(s1, s3, Now());
      } else {
        FollowsTrans(s0, s1, Now(), {id});
        F.Ends(v3, F.Reenter(id), v3);
      }
      SinksAfter(s0, s1, Now());
      if tidy {
        F.CallsThree(v0, F.Finish(id), v1, F.Release(id, committed), F.NotifyKeys(provide), v3, F.Reenter(id), Image());
      }
    }

    /** The teardown and the return to rest. */
    method Rest(id: FiberId) returns (committed: map<Key, FiberId>)
      requires Running() && id in fibers && fibers[id].state == Unloading
      modifies this`fibers, this`bonds, this`log, this`marks, this`low
      ensures committed == old(fibers)[id].committed && TornDown(old(fibers[id].part), old(log), log)
      ensures Running() && Now() == AfterTeardown(old(Now()), id)
      ensures marks == old(marks) + [F.Cleaned(id)]
    {
      hide Wired, Follows, Rank, Actives, Leaving, Unbind, Render;
      ghost var s0 := Now();
      KnownPart(s0, id);
      TeardownStep(s0, id);
      Teardown(id);
      committed := fibers[id].committed;
      fibers := fibers[id := fibers[id].(committed := map[], state := Inactive)];
      low := Least(low, Rank(s0, id));
      assert Now() == AfterTeardown(s0, id);
      assert old(log) + [] == old(log);
    }

    /** The guards of the providers, then the notifications. */
    method Unwind(id: FiberId, committed: map<Key, FiberId>, ghost provide: set<Key>)
      requires Running() && id in fibers && low <= Rank(Now(), id)
      requires Able(Now(), id) && provide == PartOf(Now(), id).Spec().provide
      modifies this`fibers, this`bonds, this`work, this`log, this`marks, this`low
      ensures Running() && Follows(old(Now()), Now(), {}) && Sinks(old(Now()), Now()) && id in fibers && old(log) <= log
      ensures old(Tidy()) ==> F.Comes(old(Image()), [F.Release(id, committed), F.NotifyKeys(provide)], Image(), [])
      decreases Actives(Now()), Leaving(Now()), 6
    {
      hide Wired, Follows, Rank, Actives, Leaving, Sinks, ImageOf, F.Step, F.Comes, Listing, Render;
      ghost var s1 := Now();
      ghost var tidy, v1 := Tidy(), Image();
      ReleaseProviders(id, committed);
      ghost var s2 := Now();
      ghost var v2 := Image();
      SameMembers(s1, s2, {});
      SameRank(s1, s2, id);
      SameMoves(s1, s2);
      NotifyAll(id);
      FollowsTrans(s1, s2, Now(), {});
      SameMembers(s1, Now(), {});
      if tidy {
        F.InTurn(v1, F.Release(id, committed), v2, F.NotifyKeys(provide), Image());
      }
    }

    /** The end of finish: a fiber that was asked to come back is evaluated again. */
    method Reenter(id: FiberId, ghost s0: Moment, ghost s1: Moment)
      requires Running() && id in fibers
      requires Wired(s0) && Wired(s1) && id in s0.fibers && s0.fibers[id].state == Unloading && s1 == AfterTeardown(s0, id)
      requires Follows(s0, s1, {id}) && Follows(s1, Now(), {}) && fibers[id].reactivate > 0
      modifies this`fibers, this`bonds, this`work, this`log, this`marks, this`low
      ensures Running() && Follows(s0, Now(), {id}) && Sinks(old(Now()), Now()) && old(log) <= log
      ensures old(Tidy()) ==> F.Comes(old(Image()), [F.Reenter(id)], Image(), [])
      decreases Actives(Now()), Leaving(Now()), 4
    {
      hide Wired, Follows, Rank, Actives, Leaving, Unbind, AfterTeardown, AfterStart, Sinks, Satisfiable,
           ImageOf, F.Step, F.Comes, Listing, Render, Written;
      ghost var u0 := Now();
      ghost var tidy, v0 := Tidy(), Image();
      ClearFlag(id);
      ghost var u := Now();
      ghost var v := Image();
      KnownFiber(u, id);
      SameMembers(u0, u, {});
      FollowsTrans(s1, u0, u, {});
      FollowsTrans(s0, s1, u, {id});
      SameMembers(s0, u, {id});
      SameRank(s0, u, id);
      if Rank(u, id) <= low {
        StillInactive(s0, s1, u, id);
      }
      SameMoves(u0, u);
      Evaluate(id);
      if u.low < Rank(u, id) {
        FollowsTrans(s0, u, Now(), {id});
      } else {
        if Now() == AfterStart(u, id) {
          Rekindle(s0, s1, u, id);
        } else {
          TouchStep(u, id, fibers[id]);
          FollowsTrans(s0, u, Now(), {id});
        }
      }
      SinksTrans(u0, u, Now());
      if tidy {
        F.Calls(v0, F.Reenter(id), v, [F.Eval(id)], Image());
      }
    }

    method ClearFlag(id: FiberId)
      requires Running() && id in fibers && fibers[id].reactivate > 0
      modifies this`fibers
      ensures Running() && Follows(old(Now()), Now(), {}) && Sinks(old(Now()), Now())
      ensures fibers == old(fibers)[id := old(fibers)[id].(reactivate := 0)]
      ensures F.Step(old(Image()), F.Reenter(id)) == (Image(), [F.Eval(id)])
    {
      hide Wired, Follows, Rank, Sinks, ImageOf, F.Step, Registered, Written;
      ReenterImage(Now(), marks, id);
      TouchStep(Now(), id, fibers[id].(reactivate := 0));
      fibers := fibers[id := fibers[id].(reactivate := 0)];
    }

    /** Erases a finished fiber from its providers and releases their guards. */
    method ReleaseProviders(id: FiberId, committed: map<Key, FiberId>)
      requires Running()
      modifies this`fibers, this`bonds, this`work, this`log, this`marks, this`low
      ensures Running() && Follows(old(Now()), Now(), {}) && Sinks(old(Now()), Now()) && old(log) <= log
      ensures old(Tidy()) ==> F.Comes(old(Image()), [F.Release(id, committed)], Image(), [])
      decreases Actives(Now()), Leaving(Now()), 5
    {
      hide Wired, Follows, Rank, Actives, Leaving, ImageOf, F.Step, F.Comes, Listing, Render;
      ghost var s0 := Now();
      ghost var tidy, v0 := Tidy(), Image();
      FollowsRefl(s0);
      F.ComesRefl(v0, [F.Release(id, committed)]);
      var todo := committed;
      while todo != map[]
        invariant todo.Keys <= committed.Keys && Running() && Follows(s0, Now(), {}) && Sinks(s0, Now()) && old(log) <= log
        invariant forall k | k in todo :: todo[k] == committed[k]
        invariant tidy ==> F.Comes(v0, [F.Release(id, committed)], Image(), [F.Release(id, todo)])
        decreases todo.Keys
      {
        assert todo.Keys != {};
        F.HasFirst(todo.Keys);
        var k :| k in todo.Keys && F.IsFirst(todo.Keys, k);
        ghost var s := Now();
        ghost var v := Image();
        SameMembers(s0, s, {});
        if todo[k] in fibers {
          Release(todo[k], id, k, todo);
          FollowsTrans(s0, s, Now(), {});
        } else {
          GoneRelease(s, marks, id, todo, k);
        }
        if tidy {
          F.ComesTrans(v0, [F.Release(id, committed)], v, [F.Release(id, todo)], Image(), [F.Release(id, todo - {k})]);
        }
        todo := todo - {k};
      }
      F.Ends(Image(), F.Release(id, map[]), Image()) by { F.ReleaseNone(Image(), id); }
      if tidy {
        F.ComesTrans(v0, [F.Release(id, committed)], Image(), [F.Release(id, map[])], Image(), []);
      }
    }

    method Release(p: FiberId, id: FiberId, ghost k: Key, ghost view: map<Key, FiberId>)
      requires Running() && p in fibers && k in view && view[k] == p && F.IsFirst(view.Keys, k)
      modifies this`fibers, this`bonds, this`work, this`log, this`marks, this`low
      ensures Running() && Follows(old(Now()), Now(), {}) && Sinks(old(Now()), Now()) && old(log) <= log
      ensures old(Tidy()) ==> F.Comes(old(Image()), [F.Release(id, view)], Image(), [F.Release(id, view - {k})])
      decreases Actives(Now()), Leaving(Now()), 4
    {
      hide Wired, Follows, Rank, Actives, Leaving, Sinks, Credit, ImageOf, F.Step, F.Comes, Listing, Registered, Written, F.IsFirst;
      ghost var s0 := Now();
      ghost var tidy, v0 := Tidy(), Image();
      var guarded := Discharge(p, id, k, view);
      if guarded {
        ghost var s1 := Now();
        ghost var v1 := Image();
        SameMoves(s0, s1);
        SameMembers(s0, s1, {});
        MaybeFinish(p);
        PayBack(s0, s1, Now(), p);
        if tidy {
          F.CallsFirst(v0, F.Release(id, view), v1, F.MaybeFinish(p), Image(), F.Release(id, view - {k}));
        }
      } else {
        F.Enter(v0, F.Release(id, view));
      }
    }

    /** Erases the consumer from the provider's set and releases one guard, if there is one. */
    method Discharge(p: FiberId, id: FiberId, ghost k: Key, ghost view: map<Key, FiberId>) returns (guarded: bool)
      requires Running() && p in fibers && k in view && view[k] == p && F.IsFirst(view.Keys, k)
      modifies this`fibers
      ensures Running() && Follows(old(Now()), Now(), {}) && Sinks(old(Now()), Now())
      ensures p in fibers && (guarded ==> Credit(Now(), p) + 1 <= old(Credit(Now(), p)))
      ensures F.Step(old(Image()), F.Release(id, view)) ==
        (Image(), if guarded then [F.MaybeFinish(p), F.Release(id, view - {k})] else [F.Release(id, view - {k})])
    {
      hide Wired, Follows, Rank, Sinks, Credit, ImageOf, F.Step, Registered, Written, F.IsFirst;
      ghost var s := Now();
      ReleaseImage(s, marks, id, view, k);
      guarded := fibers[p].remaining > 0;
      ghost var g := fibers[p].(consumers := fibers[p].consumers - {id});
      TouchStep(s, p, if guarded then g.(remaining := g.remaining - 1) else g);
      fibers := fibers[p := fibers[p].(consumers := fibers[p].consumers - {id})];
      if guarded {
        fibers := fibers[p := fibers[p].(remaining := fibers[p].remaining - 1)];
        assert fibers == s.fibers[p := fibers[p]];
      }
    }

    method NotifyAll(id: FiberId)
      requires Running() && id in fibers && Able(Now(), id) && low <= Rank(Now(), id)
      modifies this`fibers, this`bonds, this`work, this`log, this`marks, this`low
      ensures Running() && Follows(old(Now()), Now(), {}) && Sinks(old(Now()), Now()) && old(log) <= log
      ensures Known(old(Now()), id)
      ensures old(Tidy()) ==> F.Comes(old(Image()), [F.NotifyKeys(PartOf(old(Now()), id).Spec().provide)], Image(), [])
      decreases Actives(Now()), Leaving(Now()), 5
    {
      hide Wired, Follows, Rank, Actives, Leaving, ImageOf, F.Step, F.Comes, Listing, Render;
      ghost var s0 := Now();
      ghost var tidy, v0 := Tidy(), Image();
      FollowsRefl(s0);
      KnownPart(s0, id);
      var provide := parts[fibers[id].part].provide;
      assert PartOf(s0, id) == parts[fibers[id].part];
      ghost var f := F.NotifyKeys(KeysFrom(provide, 0));
      F.ComesRefl(v0, [f]);
      for i := 0 to |provide|
        invariant Running() && Follows(s0, Now(), {}) && Sinks(s0, Now()) && old(log) <= log
        invariant tidy ==> F.Comes(v0, [f], Image(), [F.NotifyKeys(KeysFrom(provide, i))])
      {
        ghost var s := Now();
        ghost var v := Image();
        SameMembers(s0, s, {});
        ListenersAbove(id, provide[i], s0);
        Notify(provide[i]);
        FollowsTrans(s0, s, Now(), {});
        if tidy {
          NotifyKeysStep(v, provide, i);
          F.Turn(v, F.NotifyKeys(KeysFrom(provide, i)), F.NotifyEach(F.Listeners(v, provide[i])), F.NotifyKeys(KeysFrom(provide, i + 1)), Image());
          F.ComesTrans(v0, [f], v, [F.NotifyKeys(KeysFrom(provide, i))], Image(), [F.NotifyKeys(KeysFrom(provide, i + 1))]);
        }
      }
      NotifyNone(Image(), provide);
      F.Ends(Image(), F.NotifyKeys(KeysFrom(provide, |provide|)), Image());
      if tidy {
        F.ComesTrans(v0, [f], Image(), [F.NotifyKeys(KeysFrom(provide, |provide|))], Image(), []);
      }
    }

    lemma ListenersAbove(id: FiberId, key: Key, s: Moment)
      requires Running() && Able(s, id) && key in PartOf(s, id).provide && low <= Rank(s, id) && SameCast(s, Now())
      ensures key in consumersOf ==> forall c | c in consumersOf[key] :: low < Rank(Now(), c)
    {
      if key in consumersOf {
        forall c | c in consumersOf[key] ensures low < Rank(Now(), c) {
          assert Declares(parts, made, c, key);
          FeedsUp(Now(), id, c, key);
          SameRank(s, Now(), id);
        }
      }
    }

    /** Re-evaluates every fiber that declares the key. */
    method Notify(key: Key)
      requires Running()
      requires key in consumersOf ==> forall c | c in consumersOf[key] :: low < Rank(Now(), c)
      modifies this`fibers, this`bonds, this`work, this`log, this`marks, this`low
      ensures Running() && Follows(old(Now()), Now(), {}) && Sinks(old(Now()), Now()) && old(log) <= log
      ensures old(Tidy()) ==> F.Comes(old(Image()), [F.NotifyEach(F.Listeners(old(Image()), key))], Image(), [])
      decreases Actives(Now()), Leaving(Now()), 4
    {
      hide Wired, Follows, Rank, Actives, Leaving, ImageOf, F.Step, F.Comes, Listing, Render;
      ghost var s0 := Now();
      ghost var tidy, v0 := Tidy(), Image();
      FollowsRefl(s0);
      if tidy {
        ListenersListed(s0, marks, consumersOf, key);
      }
      ghost var f := F.NotifyEach(F.Listeners(v0, key));
      F.ComesRefl(v0, [f]);
      F.NotifyEachNone(v0);
      F.Ends(v0, F.NotifyEach({}), v0);
      if key !in consumersOf {
        assert Members([]) == {};
        return;
      }
      var listeners := consumersOf[key];
      assert listeners[0..] == listeners;
      for i := 0 to |listeners|
        invariant Running() && Follows(s0, Now(), {}) && Sinks(s0, Now()) && old(log) <= log
        invariant tidy ==> F.Comes(v0, [f], Image(), [F.NotifyEach(Members(listeners[i..]))])
      {
        ghost var s := Now();
        ghost var v := Image();
        SameMembers(s0, s, {});
        if listeners[i] in fibers {
          SameRank(s0, s, listeners[i]);
          Evaluate(listeners[i]);
          FollowsTrans(s0, s, Now(), {});
          if tidy {
            NotifyEachStep(v, listeners, i);
            F.Turn(v, F.NotifyEach(Members(listeners[i..])), F.Eval(listeners[i]), F.NotifyEach(Members(listeners[i + 1..])), Image());
            F.ComesTrans(v0, [f], v, [F.NotifyEach(Members(listeners[i..]))], Image(), [F.NotifyEach(Members(listeners[i + 1..]))]);
          }
        }
      }
      F.NotifyEachNone(Image());
      F.Ends(Image(), F.NotifyEach({}), Image());
      assert Members(listeners[|listeners|..]) == {};
      if tidy {
        F.ComesTrans(v0, [f], Image(), [F.NotifyEach({})], Image(), []);
      }
    }

    // -------------------------------------------------------------------------------------------
    // Completion of an apply

    /** `s` is the moment before the fiber was taken off the queue. */
    ghost predicate JustPopped(s: Moment, ms: seq<F.Mark>, id: FiberId)
      reads this
    {
      && Wired(s) && Popping(s, id) && Now() == s.(work := s.work[1..]) && Registered()
      && Written() && marks == ms + [F.Ran(id)]
    }

    /** The fibers whose apply fails. */
    function Failing(): set<FiberId>
      reads this
    {
      FailingOf(parts, fibers)
    }

    /** Completes the apply at the head of the queue. */
    method RunNext()
      requires Running() && work != []
      modifies this`fibers, this`bonds, this`work, this`log, this`marks, this`low
      ensures Running() && (Queued(old(Now())) ==> Queued(Now()))
      ensures old(work)[0] in old(fibers) ==> Progress(old(Now()), Now())
      ensures old(work)[0] !in old(fibers) ==> Now() == old(Now()).(work := old(work)[1..]) && log == old(log)
      ensures old(Tidy()) ==> F.Comes(old(Image()), [F.Next(old(work[0] in Failing()))], Image(), [])
    {
      hide Wired, Follows, Rank, Queued, Progress, ImageOf, F.Step, F.Comes, Listing, Render;
      ghost var s0 := Now();
      ghost var ms := marks;
      var id := work[0];
      TailWired(s0);
      if id !in fibers {
        TailQueued(s0);
        SkipImage(s0, marks, false);
        F.Ends(Image(), F.Next(false), ImageOf(s0.(work := work[1..]), marks));
        work := work[1..];
        return;
      }
      KnownPart(s0, id);
      HeadAble(s0);
      ghost var s := s0.(low := Rank(s0, id));
      LowAnywhere(s0, Rank(s0, id));
      SameRank(s0, s, id);
      low := Rank(s0, id);
      work := work[1..];
      var part := parts[fibers[id].part];
      log := log + [Applied(part.name)];
      RenderSnoc(parts, made, marks, F.Ran(id));
      marks := marks + [F.Ran(id)];
      ApplyCompleted(id, part.fails, s, ms);
      LowIrrelevant(s0, Rank(s0, id), Now());
      LowImage(s0, Rank(s0, id), ms);
    }

    method ApplyCompleted(id: FiberId, failure: bool, ghost s: Moment, ghost ms: seq<F.Mark>)
      requires JustPopped(s, ms, id)
      modifies this`fibers, this`bonds, this`work, this`log, this`marks, this`low
      ensures Running() && Progress(s, Now()) && (Queued(s) ==> Queued(Now()))
      ensures failure || s.fibers[id].state == Unloading || !Live(s.bonds, s.fibers[id].committed) ==> Landing(s, Now(), id, failure)
      ensures !failure && s.fibers[id].state != Unloading && Live(s.bonds, s.fibers[id].committed) ==> Publishing(s, Now(), id)
      ensures old(Tidy()) ==> F.Comes(ImageOf(s, ms), [F.Next(failure)], Image(), [])
    {
      hide Wired, Follows, Rank, Queued, Progress, Live, Landing, Publishing, ImageOf, F.Step, F.Comes, Listing, Render;
      var live := ProvidersStillActive(id);
      if failure || fibers[id].state == Unloading || !live {
        Land(id, failure, live, s, ms);
      } else {
        Publish(id, s, ms);
      }
    }

    method Land(id: FiberId, failure: bool, live: bool, ghost s: Moment, ghost ms: seq<F.Mark>)
      requires JustPopped(s, ms, id) && live == Live(s.bonds, s.fibers[id].committed)
      requires failure || fibers[id].state == Unloading || !live
      modifies this`fibers, this`bonds, this`work, this`log, this`marks, this`low
      ensures Running() && Progress(s, Now()) && (Queued(s) ==> Queued(Now()))
      ensures Landing(s, Now(), id, failure)
      ensures old(Tidy()) ==> F.Comes(ImageOf(s, ms), [F.Next(failure)], Image(), [])
    {
      hide Wired, Follows, Rank, Queued, Progress, Live, Unbind, Satisfiable, AfterStart, ImageOf, F.Step, F.Comes, Listing, Render;
      ghost var tidy := Tidy();
      TailWired(s);
      LandWired(s, id, Landed(s.fibers[id], failure));
      LandImage(s, ms, id, failure);
      RecordLanding(id, failure);
      ghost var v := Image();
      assert fibers.Keys == s.fibers.Keys;
      assert ms + [F.Ran(id)] + [F.Cleaned(id)] == ms + [F.Ran(id), F.Cleaned(id)];
      if !live && fibers[id].reactivate >= 0 {
        Evaluate(id);
        if tidy {
          F.Calls(ImageOf(s, ms), F.Next(failure), v, [F.Eval(id)], Image());
        }
      } else {
        F.Ends(ImageOf(s, ms), F.Next(failure), v);
      }
      LandOutcome(s, Now(), id, failure);
    }

    /** The outcome of an apply that does not publish, and its teardown. */
    method RecordLanding(id: FiberId, failure: bool)
      requires Running() && id in fibers
      modifies this`fibers, this`bonds, this`log, this`marks
      ensures fibers == old(fibers)[id := Landed(old(fibers)[id], failure)] && bonds == Unbind(old(bonds), id)
      ensures Written() && marks == old(marks) + [F.Cleaned(id)]
    {
      hide Wired, Unbind, Render;
      ghost var f := fibers[id];
      var cancelled := fibers[id].state == Unloading;
      Teardown(id);
      if failure {
        fibers := fibers[id := fibers[id].(hasError := true, applyFailed := true)];
      } else if cancelled && !fibers[id].hasError {
        fibers := fibers[id := fibers[id].(hasError := true)];
      }
      fibers := fibers[id := fibers[id].(state := Inactive, committed := map[])];
      assert fibers[id] == Landed(f, failure);
    }

    /** Binds the provisions, enlists with the providers and notifies everybody who declares a key. */
    method Publish(id: FiberId, ghost s: Moment, ghost ms: seq<F.Mark>)
      requires JustPopped(s, ms, id) && s.fibers[id].state != Unloading && Live(s.bonds, s.fibers[id].committed)
      modifies this`fibers, this`bonds, this`work, this`log, this`marks, this`low
      ensures Running() && Progress(s, Now()) && (Queued(s) ==> Queued(Now()))
      ensures Publishing(s, Now(), id)
      ensures old(Tidy()) ==> F.Comes(ImageOf(s, ms), [F.Next(false)], Image(), [])
    {
      hide Wired, Follows, Rank, Queued, Progress, Live, Bind, Popped, ImageOf, F.Step, F.Comes, Listing, Render;
      ghost var tidy := Tidy();
      TailWired(s);
      PublishImage(s, ms, id);
      PublishPop(s, id);
      BindProvisions(id);
      fibers := fibers[id := fibers[id].(state := Active)];
      ghost var v := Now();
      assert v == AfterPublish(s, id) && v.fibers.Keys == s.fibers.Keys;
      EnlistWithProviders(id);
      ghost var u := Now();
      SameMembers(v, u, {});
      AtFloor(s, v, u, id);
      assert u == AfterEnlist(v, id);
      ghost var image := Image();
      ghost var provide := PartOf(s, id).Spec().provide;
      assert Known(u, id) && PartOf(u, id) == PartOf(s, id);
      NotifyAll(id);
      if tidy {
        F.Calls(ImageOf(s, ms), F.Next(false), image, [F.NotifyKeys(provide)], Image());
      }
      FollowsTrans(v, u, Now(), {});
      PopProgress(s, v, Now(), id);
      QueuedKept(v, Now());
    }

    method BindProvisions(id: FiberId)
      requires Running() && id in fibers
      modifies this`bonds
      ensures Known(Now(), id) && bonds == Bind(old(bonds), PartOf(Now(), id).provide, id)
    {
      hide Wired, Registered;
      KnownPart(Now(), id);
      var provide := parts[fibers[id].part].provide;
      assert provide == PartOf(Now(), id).provide;
      for i := 0 to |provide|
        invariant forall k :: k in bonds <==> k in old(bonds) || k in provide[..i]
        invariant forall k | k in bonds :: bonds[k] == if k in provide[..i] then Bond(id, false) else old(bonds)[k]
      {
        assert provide[..i + 1] == provide[..i] + [provide[i]];
        bonds := bonds[provide[i] := Bond(id, false)];
      }
      assert provide[..|provide|] == provide;
    }

    method Enlist(p: FiberId, id: FiberId)
      requires Running() && p in fibers && Over(Now(), p, id)
      modifies this`fibers
      ensures Running() && Follows(old(Now()), Now(), {})
      ensures fibers == old(fibers)[p := old(fibers)[p].(consumers := old(fibers)[p].consumers + {id})]
    {
      hide Wired, Follows, Rank;
      var g := fibers[p].(consumers := fibers[p].consumers + {id});
      OneConsumer(Now(), p, id, g);
      TouchStep(Now(), p, g);
      fibers := fibers[p := g];
    }

    method EnlistWithProviders(id: FiberId)
      requires Running() && id in fibers
      modifies this`fibers
      ensures Running() && Follows(old(Now()), Now(), {}) && id in fibers
      ensures Now() == AfterEnlist(old(Now()), id)
    {
      hide Wired, Follows, Rank, Registered, Known, AfterEnlist, NamedOutside;
      ghost var s0 := Now();
      FollowsRefl(s0);
      var committed := fibers[id].committed;
      var todo := committed.Keys;
      NamedNone(committed);
      while todo != {}
        invariant todo <= committed.Keys && Running() && Follows(s0, Now(), {})
        invariant fibers.Keys == s0.fibers.Keys
        invariant forall p | p in fibers ::
          fibers[p] == if NamedOutside(committed, todo, p) then s0.fibers[p].(consumers := s0.fibers[p].consumers + {id}) else s0.fibers[p]
      {
        var k :| k in todo;
        var p := committed[k];
        NamedNext(committed, todo, k);
        if p in fibers {
          ghost var u := Now();
          CommittedBelow(u, id, k);
          Enlist(p, id);
          FollowsTrans(s0, u, Now(), {});
        }
        todo := todo - {k};
      }
      EnlistedAll(s0, Now(), id);
    }

    /** Completes every pending apply, those it causes included: it ends whenever the fibers that may come
        up are in an order of dependency. */
    method Drain()
      requires Running() && Queued(Now())
      modifies this`fibers, this`bonds, this`work, this`log, this`marks, this`low
      ensures Running() && Queued(Now()) && work == [] && SameCast(old(Now()), Now())
      ensures forall x | x in fibers :: fibers[x].state != Loading
      ensures old(work) == [] ==> Now() == old(Now()) && log == old(log)
      ensures Failing() == old(Failing())
      ensures old(Tidy()) ==> F.Comes(old(Image()), [F.Drain(old(Failing()))], Image(), [])
    {
      hide Wired, Follows, Rank, Progress, Potential, ImageOf, F.Step, F.Comes, Listing, Render;
      ghost var tidy, v0, raises := Tidy(), Image(), Failing();
      F.ComesRefl(v0, [F.Drain(raises)]);
      while work != []
        invariant Running() && Queued(Now()) && SameCast(old(Now()), Now()) && Failing() == raises
        invariant old(work) == [] ==> Now() == old(Now()) && log == old(log)
        invariant tidy ==> F.Comes(v0, [F.Drain(raises)], Image(), [F.Drain(raises)])
        decreases Potential(Now()), |work|
      {
        ghost var s := Now();
        ghost var v := Image();
        DrainImage(s, marks, raises);
        RunNext();
        if tidy {
          F.Turn(v, F.Drain(raises), F.Next(s.work[0] in raises), F.Drain(raises), Image());
          F.ComesTrans(v0, [F.Drain(raises)], v, [F.Drain(raises)], Image(), [F.Drain(raises)]);
        }
        if s.work[0] in s.fibers {
          ProgressDrops(s, Now());
          ProgressCast(s, Now());
        } else {
          SkipSame(s);
        }
      }
      DrainImage(Now(), marks, raises);
      F.Ends(Image(), F.Drain(raises), Image());
      if tidy {
        F.ComesTrans(v0, [F.Drain(raises)], Image(), [F.Drain(raises)], Image(), []);
      }
    }

    // -------------------------------------------------------------------------------------------
    // Operations

    ghost function Seating(): map<Slot, Seat>
      reads this`slotOf, this`fibers
    {
      Seats(slotOf, fibers)
    }

    /** Mounts a component into an empty slot and waits; an occupied slot is left alone. The fibers must be
        such that they can be put in order. */
    method Mount(slot: Slot, part: char, config: string)
      requires Valid() && part in parts
      requires slot !in slotOf ==> Sortable(AfterMount(Now(), nextId, slot, part, config))
      modifies this`fibers, this`slotOf, this`nextId, this`bonds, this`consumersOf, this`work, this`log, this`marks, this`made,
               this`rank, this`idle, this`low
      ensures Valid()
      ensures old(slot in slotOf) ==> Now() == old(Now()) && slotOf == old(slotOf) && log == old(log)
      ensures old(slot !in slotOf) ==>
        && slot in slotOf && slotOf[slot] !in old(fibers)
        && Seating() == old(Seating())[slot := Seat(slotOf[slot], part, config)]
      ensures old(slot in slotOf) ==> marks == old(marks)
      ensures old(Tidy()) ==> Tidy()
      ensures old(slot !in slotOf && Tidy()) ==>
        F.Comes(old(Image()), [F.Install(old(nextId), parts[part].Spec()), F.Drain(Failing())], Image(), [])
      ensures old(slot !in slotOf) ==>
        slotOf[slot] == old(nextId) && nextId == old(nextId) + 1 && fibers.Keys == old(fibers).Keys + {old(nextId)}
      ensures old(slot !in slotOf) ==> Failing() == old(Failing()) + if parts[part].fails then {old(nextId)} else {}
    {
      hide Wired, Follows, Rank, Queued, Seated, Registered, ImageOf, F.Step, F.Comes, Listing, Render, Plain, Failing;
      if slot in slotOf {
        return;
      }
      ghost var slots, pool := slotOf, fibers;
      ghost var tidy, v0 := Tidy(), Image();
      InstallImage(Now(), marks, nextId, slot, part, config);
      ghost var mounted := AfterMount(Now(), nextId, slot, part, config);
      var id := Install(slot, part, config);
      SeatsMore(slots, pool, id, Fresh(slot, part, config));
      ReorderedImage(mounted, rank, idle, marks);
      ghost var s1 := Now();
      ghost var v1 := Image();
      Settle(id);
      SeatsKept(slotOf, s1, Now());
      if tidy {
        ghost var install, drain := F.Install(id, parts[part].Spec()), F.Drain(Failing());
        F.Unfold(v0, install, [drain]);
        assert [install] + [drain] == [install, drain] && [F.Eval(id)] + [drain] == [F.Eval(id), drain];
        F.ComesTrans(v0, [install, drain], v1, [F.Eval(id), drain], Image(), []);
      }
    }

    /** The record, its slot and its registrations, before it is evaluated. */
    method Install(slot: Slot, part: char, config: string) returns (id: FiberId)
      requires Valid() && part in parts && slot !in slotOf && Sortable(AfterMount(Now(), nextId, slot, part, config))
      modifies this`fibers, this`slotOf, this`nextId, this`consumersOf, this`made, this`rank, this`idle, this`low
      ensures Ready() && id == old(nextId) && id !in old(fibers) && id in fibers && low < Rank(Now(), id) && fibers[id].state == Inactive
      ensures slotOf == old(slotOf)[slot := id] && fibers == old(fibers)[id := Fresh(slot, part, config)]
      ensures Now() == Reordered(AfterMount(old(Now()), id, slot, part, config), rank, idle) && marks == old(marks) && nextId == old(nextId) + 1
      ensures log == old(log)
      ensures old(Tidy()) ==> Tidy()
      ensures Failing() == old(Failing()) + if parts[part].fails then {id} else {}
    {
      hide Wired, Rank, Queued, Seated, Listing, Plain, Render, Declarers, AfterMount;
      ghost var tidy, index, s, seats := Tidy(), consumersOf, Now(), slotOf;
      ghost var order, still :| Wired(Reordered(AfterMount(s, nextId, slot, part, config), order, still));
      InstalledWritten(part);
      id := Record(slot, part, config, Reordered(AfterMount(s, nextId, slot, part, config), order, still));
      Recorded(s, Now(), id, slot, part, config);
      ReadyAgain(s, seats, id, slot, part, config);
      Enroll(id, part);
      FailingMore(parts, s.fibers, id, fibers[id]);
      if tidy {
        ListingMore(index, consumersOf, parts, s.made, s.fibers.Keys, id, part);
        assert fibers.Keys == s.fibers.Keys + {id};
      }
    }

    method Record(slot: Slot, part: char, config: string, ghost w: Moment) returns (id: FiberId)
      requires w == Reordered(AfterMount(Now(), nextId, slot, part, config), w.rank, w.idle)
      modifies this`fibers, this`slotOf, this`nextId, this`made, this`rank, this`idle, this`low
      ensures id == old(nextId) && nextId == id + 1 && slotOf == old(slotOf)[slot := id] && Now() == w
    {
      id := nextId;
      nextId, slotOf, fibers := nextId + 1, slotOf[slot := id], fibers[id := Fresh(slot, part, config)];
      made, rank, idle, low := made[id := part], w.rank, w.idle, 0;
    }

    /** The new record is as good as those before it. */
    lemma ReadyAgain(s: Moment, seats: map<Slot, FiberId>, id: FiberId, slot: Slot, part: char, config: string)
      requires Wired(s) && Queued(s) && Seated(seats, s.fibers) && (forall x | x in s.made :: x < id) && slot !in seats && part in s.parts
      requires Wired(Now()) && Now() == Reordered(AfterMount(s, id, slot, part, config), rank, idle)
      requires Declarers(parts, s.made, consumersOf) && log == Render(parts, made, marks) && forall i | 0 <= i < |marks| :: marks[i].id in made
      requires slotOf == seats[slot := id] && nextId == id + 1
      ensures Ready() && id !in s.fibers && Known(Now(), id) && low < Rank(Now(), id)
    {
      hide Wired, Rank, Queued, Seated, Render, Declarers;
      DeclarersMore(parts, s.made, consumersOf, id, part);
      MountStep(s, id, slot, part, config, Now());
      SeatedMore(seats, s.fibers, id, Fresh(slot, part, config));
    }

    /** Nothing written so far concerns the next fiber. */
    lemma InstalledWritten(part: char)
      requires Ready()
      ensures log == Render(parts, made[nextId := part], marks) && fibers.Keys <= made.Keys
      ensures forall i | 0 <= i < |marks| :: marks[i].id in made[nextId := part]
    {
      hide Wired, Render;
      Imaged(Now(), marks);
      RenderMore(parts, made, marks, nextId, part);
    }

    /** Evaluates a new fiber and waits. */
    method Settle(id: FiberId)
      requires Ready() && id in fibers && low < Rank(Now(), id) && fibers[id].state == Inactive
      modifies this`fibers, this`bonds, this`work, this`log, this`marks, this`low
      ensures Valid() && SameCast(old(Now()), Now())
      ensures Failing() == old(Failing())
      ensures old(Tidy()) ==> F.Comes(old(Image()), [F.Eval(id), F.Drain(Failing())], Image(), [])
    {
      hide Wired, Follows, Rank, Queued, Seated, Registered, Reconsidered, ImageOf, F.Step, F.Comes, Listing, Render, Plain;
      ghost var s1 := Now();
      ghost var tidy, v1, raises := Tidy(), Image(), Failing();
      Evaluate(id);
      ghost var s2 := Now();
      ghost var v2 := Image();
      SameMembers(s1, s2, {});
      assert Failing() == raises;
      QueuedKept(s1, s2);
      Drain();
      SeatedKept(slotOf, s1, Now());
      assert Failing() == raises;
      if tidy {
        F.InTurn(v1, F.Eval(id), v2, F.Drain(raises), Image());
      }
    }

    /** Lists the fiber under every key it declares. */
    method Enroll(id: FiberId, part: char)
      requires Registered() && Known(Now(), id) && made[id] == part
      modifies this`consumersOf
      ensures Registered()
      ensures Plain(parts[part]) ==> Appended(old(consumersOf), consumersOf, parts[part].Keys(), id)
    {
      hide DeclaredBy, Appended;
      var inject := parts[part].inject;
      NoneAppended(consumersOf, id);
      assert DeclaredBy(inject, 0) == {} by {
        DeclaredNone(inject);
      }
      for i := 0 to |inject|
        invariant Registered()
        invariant Plain(parts[part]) ==> Appended(old(consumersOf), consumersOf, DeclaredBy(inject, i), id)
      {
        var key := inject[i].key;
        assert Declares(parts, made, id, key);
        DeclaredNext(inject, i);
        if Plain(parts[part]) {
          AppendedNext(old(consumersOf), consumersOf, DeclaredBy(inject, i), id, key);
        }
        consumersOf := consumersOf[key := (if key in consumersOf then consumersOf[key] else []) + [id]];
      }
      DeclaredAll(parts[part]);
    }

    /** Withdraws the fiber in a slot, waits, and drops its record. */
    method Retire(slot: Slot)
      requires Valid()
      modifies this`fibers, this`slotOf, this`bonds, this`consumersOf, this`work, this`log, this`marks, this`low
      ensures Valid()
      ensures Seating() == old(Seating()) - {slot} && slot !in slotOf
      ensures old(slot !in slotOf) ==> Now() == old(Now()) && log == old(log) && marks == old(marks)
      ensures old(Tidy()) ==> Tidy()
      ensures old(slot in slotOf && Tidy()) ==>
        var id := old(slotOf)[slot];
        F.Comes(old(Image()), [F.Retire(id), F.Drain(old(Failing())), F.Erase(id)], Image(), [])
      ensures old(slot in slotOf) ==> fibers.Keys == old(fibers).Keys - {old(slotOf)[slot]}
      ensures old(slot in slotOf) ==> Failing() == old(Failing()) - {old(slotOf)[slot]}
    {
      hide Wired, Follows, Rank, Queued, Registered, Seats, ImageOf, F.Step, F.Comes, Listing, Render, Plain, Failing;
      if slot !in slotOf {
        NoSeat(slotOf, fibers, slot);
        return;
      }
      var id := slotOf[slot];
      ghost var tidy, v0, raises := Tidy(), Image(), Failing();
      ghost var s0 := Now();
      Withdraw(id);
      ghost var s1 := Now();
      ghost var v1 := Image();
      assert Failing() == raises;
      Drain();
      ghost var v2 := Image();
      SeatedKept(slotOf, s0, Now());
      SeatsKept(slotOf, s0, Now());
      SeatsLess(slotOf, fibers, slot);
      Erase(id);
      if tidy {
        F.ThreeInTurn(v0, F.Retire(id), v1, F.Drain(raises), v2, F.Erase(id), Image());
      }
    }

    method Withdraw(id: FiberId)
      requires Running() && Queued(Now()) && id in fibers
      modifies this`fibers, this`bonds, this`work, this`log, this`marks, this`low
      ensures Running() && Queued(Now()) && SameCast(old(Now()), Now())
      ensures Failing() == old(Failing())
      ensures old(Tidy()) ==> F.Comes(old(Image()), [F.Retire(id)], Image(), [])
    {
      hide Wired, Follows, Rank, Queued, ImageOf, F.Step, F.Comes, Listing, Registered, Written;
      ghost var tidy, v0 := Tidy(), Image();
      Doom(id);
      ghost var s1 := Now();
      ghost var v1 := Image();
      BeginUnload(id, false);
      SameMembers(s1, Now(), {});
      QueuedKept(s1, Now());
      if tidy {
        F.Calls(v0, F.Retire(id), v1, [F.Unload(id, false)], Image());
      }
    }

    /** The retirement is recorded for good, and anything may be disturbed from here on. */
    method Doom(id: FiberId)
      requires Running() && Queued(Now()) && id in fibers
      modifies this`fibers, this`low
      ensures Running() && Queued(Now()) && SameCast(old(Now()), Now()) && id in fibers && low < Rank(Now(), id)
      ensures F.Step(old(Image()), F.Retire(id)) == (Image(), [F.Unload(id, false)])
    {
      hide Wired, Follows, Rank, Queued, ImageOf, F.Step, Registered, Written;
      ghost var s0 := Now();
      RetireImage(s0, marks, id);
      TouchStep(s0, id, fibers[id].(reactivate := -1));
      fibers := fibers[id := fibers[id].(reactivate := -1)];
      ghost var s1 := Now();
      SameMembers(s0, s1, {});
      QueuedKept(s0, s1);
      LowAnywhere(s1, 0);
      LowQueued(s1, 0);
      LowImage(s1, 0, marks);
      low := 0;
      assert Now() == s1.(low := 0);
      KnownRank(Now(), id);
    }

    method Erase(id: FiberId)
      requires Valid() && id in fibers
      modifies this`fibers, this`slotOf, this`consumersOf
      ensures Valid()
      ensures fibers == old(fibers) - {id} && slotOf == old(slotOf) - {old(fibers)[id].slot}
      ensures old(Tidy()) ==> F.Comes(old(Image()), [F.Erase(id)], Image(), [])
      ensures old(Tidy()) ==> Tidy()
      ensures Failing() == old(Failing()) - {id}
    {
      hide Wired, Queued, Seated, ImageOf, F.Step, F.Comes, Listing, Plain, Written, Declarers, FailingOf;
      FailingLess(parts, fibers, id);
      EraseStep(Now(), id);
      EraseImage(Now(), marks, id);
      F.Ends(Image(), F.Erase(id), ImageOf(Now().(fibers := fibers - {id}), marks));
      SeatedLess(slotOf, fibers, id);
      Unlist(id);
      slotOf := slotOf - {fibers[id].slot};
      assert fibers.Keys - {id} == (fibers - {id}).Keys;
      fibers := fibers - {id};
    }

    /** Drops a fiber from the lists of who declares a key. */
    method Unlist(id: FiberId)
      requires Declarers(parts, made, consumersOf)
      modifies this`consumersOf
      ensures Declarers(parts, made, consumersOf)
      ensures old(Listing(consumersOf, parts, made, fibers.Keys)) ==> Listing(consumersOf, parts, made, fibers.Keys - {id})
    {
      hide Listing, Declarers;
      ghost var index := consumersOf;
      DeclarersLess(parts, made, index, id);
      consumersOf := map k | k in consumersOf :: Without(consumersOf[k], id);
      if Listing(index, parts, made, fibers.Keys) {
        ListingLess(index, consumersOf, parts, made, fibers.Keys, id);
      }
    }

    // -------------------------------------------------------------------------------------------
    // Reconciliation over the whole declared state

    predicate Fits(seats: map<Slot, Seat>, slot: Slot, want: (char, string)) {
      && slot in seats && seats[slot].part in parts && want.0 in parts
      && parts[seats[slot].part].name == parts[want.0].name && seats[slot].config == want.1
    }

    /** What reconciliation makes of a desired slot: an imperatively mounted fiber keeps it; otherwise it
        is declared and fits, by the fiber that was there if that one fitted already. */
    predicate Served(before: map<Slot, Seat>, rec: set<Slot>, after: map<Slot, Seat>, recAfter: set<Slot>, slot: Slot, want: (char, string)) {
      if slot in before && slot !in rec then
        slot !in recAfter && slot in after && after[slot] == before[slot]
      else
        && slot in recAfter && Fits(after, slot, want)
        && (Fits(before, slot, want) ==> after[slot] == before[slot])
    }

    predicate SameSeat(before: map<Slot, Seat>, after: map<Slot, Seat>, slot: Slot) {
      (slot in before <==> slot in after) && (slot in before ==> after[slot] == before[slot])
    }

    /** Only the slot itself matters to whether it was served. */
    lemma ServedAlike(b: map<Slot, Seat>, r: set<Slot>, a: map<Slot, Seat>, ra: set<Slot>,
                      b2: map<Slot, Seat>, r2: set<Slot>, a2: map<Slot, Seat>, ra2: set<Slot>, slot: Slot, want: (char, string))
      requires Served(b, r, a, ra, slot, want)
      requires SameSeat(b, b2, slot) && SameSeat(a, a2, slot) && (slot in r <==> slot in r2) && (slot in ra <==> slot in ra2)
      ensures Served(b2, r2, a2, ra2, slot, want)
    {}

    /** Every declared slot is desired, and every desired one needs nothing. */
    predicate Agreed(seats: map<Slot, Seat>, rec: set<Slot>, desired: map<Slot, (char, string)>) {
      rec <= desired.Keys && forall s | s in desired :: s in seats && (s in rec ==> Fits(seats, s, desired[s]))
    }

    /** Brings the slots under declared control to the desired state. */
    method ReconcileAll(desired: map<Slot, (char, string)>)
      requires Valid() && Acyclic(parts) && forall s | s in desired :: desired[s].0 in parts
      modifies this
      ensures Valid()
      ensures forall s | s in desired :: Served(old(Seating()), old(reconciled), Seating(), reconciled, s, desired[s])
      ensures forall s | s !in desired :: s !in reconciled
      ensures forall s | s !in desired :: if s in old(reconciled) then s !in Seating() else SameSeat(old(Seating()), Seating(), s)
      ensures old(Agreed(Seating(), reconciled, desired)) ==>
        Now() == old(Now()) && slotOf == old(slotOf) && reconciled == old(reconciled) && log == old(log)
    {
      hide Ready, Queued, Seats, Served;
      RetireUndesired(desired);
      var todo := desired.Keys;
      ghost var seats, rec := Seating(), reconciled;
      while todo != {}
        invariant todo <= desired.Keys && Valid() && rec <= desired.Keys && reconciled <= desired.Keys
        invariant forall s | s in desired && s !in todo :: Served(seats, rec, Seating(), reconciled, s, desired[s])
        invariant forall s | s !in desired || s in todo :: SameSeat(seats, Seating(), s)
        invariant forall s | s !in desired || s in todo :: s in reconciled <==> s in rec
        invariant old(Agreed(Seating(), reconciled, desired)) ==>
          Now() == old(Now()) && slotOf == old(slotOf) && reconciled == old(reconciled) && log == old(log)
      {
        var s :| s in todo;
        todo := todo - {s};
        ghost var mid, midRec := Seating(), reconciled;
        ReconcileSlot(s, desired[s].0, desired[s].1);
        ServedAlike(mid, midRec, Seating(), reconciled, seats, rec, Seating(), reconciled, s, desired[s]);
        forall t | t in desired && t !in todo && t != s ensures Served(seats, rec, Seating(), reconciled, t, desired[t]) {
          ServedAlike(seats, rec, mid, midRec, seats, rec, Seating(), reconciled, t, desired[t]);
        }
      }
      forall s | s in desired ensures Served(old(Seating()), old(reconciled), Seating(), reconciled, s, desired[s]) {
        ServedAlike(seats, rec, Seating(), reconciled, old(Seating()), old(reconciled), Seating(), reconciled, s, desired[s]);
      }
    }

    /** Declared slots that are no longer desired. */
    method RetireUndesired(desired: map<Slot, (char, string)>)
      requires Valid()
      modifies this
      ensures Valid() && reconciled == old(reconciled) * desired.Keys
      ensures forall s :: if s in old(reconciled) && s !in desired then s !in Seating() else SameSeat(old(Seating()), Seating(), s)
      ensures old(reconciled) <= desired.Keys ==> Now() == old(Now()) && slotOf == old(slotOf) && log == old(log)
    {
      hide Ready, Queued, Seats;
      var todo := reconciled;
      while todo != {}
        invariant Valid() && todo <= old(reconciled) && reconciled == todo + old(reconciled) * desired.Keys
        invariant forall s ::
          if s in old(reconciled) && s !in desired && s !in todo then s !in Seating() else SameSeat(old(Seating()), Seating(), s)
        invariant old(reconciled) <= desired.Keys ==> Now() == old(Now()) && slotOf == old(slotOf) && log == old(log)
      {
        var s :| s in todo;
        todo := todo - {s};
        if s !in desired {
          Retire(s);
          reconciled := reconciled - {s};
        }
      }
    }

    /** Keeps, reconfigures in place or rebuilds the fiber of one desired slot. */
    method ReconcileSlot(slot: Slot, part: char, config: string)
      requires Valid() && Acyclic(parts) && part in parts
      modifies this
      ensures Valid()
      ensures Served(old(Seating()), old(reconciled), Seating(), reconciled, slot, (part, config))
      ensures forall s | s != slot :: SameSeat(old(Seating()), Seating(), s) && (s in reconciled <==> s in old(reconciled))
      ensures old(slot in Seating() && (slot in reconciled ==> Fits(Seating(), slot, (part, config)))) ==>
        Now() == old(Now()) && slotOf == old(slotOf) && reconciled == old(reconciled) && log == old(log)
    {
      hide Valid, Seats, Tidy, Image, F.Comes, Failing, Reconsidered;
      SeatHere(slot);
      if slot in slotOf && slot in reconciled {
        var id := slotOf[slot];
        var sameImpl := parts[part].name == parts[fibers[id].part].name;
        var sameConfig := fibers[id].config == config;
        if sameImpl && sameConfig {
          return;
        }
        if sameImpl && !sameConfig && fibers[id].state == Active && parts[part].reconfigures {
          Reconfigure(slot, config);
          return;
        }
        ghost var before := Seating();
        Vacate(slot);
        ghost var between := Seating();
        Occupy(slot, part, config);
        forall s | s != slot ensures SameSeat(before, Seating(), s) {
          assert SameSeat(before, between, s) && SameSeat(between, Seating(), s);
        }
      } else if slot !in slotOf {
        Occupy(slot, part, config);
      }
    }

    method Vacate(slot: Slot)
      requires Valid()
      modifies this
      ensures Valid() && slot !in Seating() && reconciled == old(reconciled) - {slot}
      ensures forall s | s != slot :: SameSeat(old(Seating()), Seating(), s)
    {
      hide Valid, Seats, Tidy, Image, F.Comes, Failing;
      Retire(slot);
      reconciled := reconciled - {slot};
    }

    method Occupy(slot: Slot, part: char, config: string)
      requires Valid() && Acyclic(parts) && part in parts && slot !in Seating()
      modifies this
      ensures Valid() && Fits(Seating(), slot, (part, config)) && reconciled == old(reconciled) + {slot}
      ensures forall s | s != slot :: SameSeat(old(Seating()), Seating(), s)
    {
      hide Valid, Seats, Tidy, Image, F.Comes, Failing;
      SeatHere(slot);
      Sorts(slot, part, config);
      Mount(slot, part, config);
      reconciled := reconciled + {slot};
    }

    lemma SeatHere(slot: Slot)
      requires Valid()
      ensures slot in Seating() <==> slot in slotOf
      ensures slot in slotOf ==>
        && slotOf[slot] in fibers && fibers[slotOf[slot]].part in parts
        && Seating()[slot] == Seat(slotOf[slot], fibers[slotOf[slot]].part, fibers[slotOf[slot]].config)
    {
      hide Wired;
      SeatOf(slotOf, fibers);
      if slot in slotOf {
        KnownPart(Now(), slotOf[slot]);
      }
    }

    /** In an acyclic pool anything can be mounted. */
    lemma Sorts(slot: Slot, part: char, config: string)
      requires Valid() && Acyclic(parts) && part in parts
      ensures Sortable(AfterMount(Now(), nextId, slot, part, config))
    {
      hide Wired, Acyclic;
      AcyclicSorts(Now(), nextId, slot, part, config);
    }

    method Reconfigure(slot: Slot, config: string)
      requires Valid() && slot in slotOf && slotOf[slot] in fibers
      modifies this`fibers
      ensures Valid()
      ensures slot in old(Seating()) && Seating() == old(Seating())[slot := old(Seating())[slot].(config := config)]
    {
      hide Wired, Queued, Seats, Seated;
      SeatOf(slotOf, fibers);
      ConfigStep(Now(), slotOf[slot], config);
      SeatsNamed(slotOf, fibers, slot, config);
      fibers := fibers[slotOf[slot] := fibers[slotOf[slot]].(config := config)];
    }
  }
}
