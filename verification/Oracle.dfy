/**
  The data of the reference machine (proof/oracle/oracle.hpp), and how one moment of it may follow
  another inside an operation.

  Nothing is assumed of the components but an order of dependency among those that may come up: keys
  may have several providers, a component may provide several keys, dependencies may be optional.
  Nothing below relies on cascades being orderly.
 */
module Oracle {
  import Fibers

  type FiberId = Fibers.FiberId

  type Slot = nat

  /** Keys are only compared; they are the engine's service identifiers. */
  type Key = Fibers.ServiceId

  datatype Part = Part(name: string, inject: seq<Fibers.Dependency>, provide: seq<Key>, fails: bool, reconfigures: bool) {

    /** The same declarations as a plugin descriptor has them. */
    function Spec(): Fibers.Component {
      Fibers.Component(inject, set k | k in provide)
    }

    function Keys(): set<Key> {
      Spec().Keys()
    }

    function RequiredKeys(): set<Key> {
      Spec().RequiredKeys()
    }
  }

  type Parts = map<char, Part>

  datatype Phase = Inactive | Loading | Active | Unloading

  datatype Bond = Bond(provider: FiberId, retiring: bool)

  type Bonds = map<Key, Bond>

  datatype Fiber = Fiber(
    slot: Slot,
    part: char,
    config: string,
    state: Phase,
    applyFailed: bool,
    hasError: bool,
    reactivate: int,
    committed: map<Key, FiberId>,
    consumers: set<FiberId>,
    remaining: nat)

  datatype Entry = Applied(name: string) | Cleaned(name: string)

  /** A moment of the machine. `made` remembers the component of every fiber ever mounted, `idle` has those
      known not to come up before the next mount, `rank` puts the others in an order of dependency, and
      `low` is the least rank at which the running operation has disturbed anything. */
  datatype Moment = Moment(
    parts: Parts,
    rank: map<FiberId, nat>,
    idle: set<FiberId>,
    made: map<FiberId, char>,
    fibers: map<FiberId, Fiber>,
    bonds: Bonds,
    work: seq<FiberId>,
    low: nat)

  // ---------------------------------------------------------------------------------------------
  // The dependency order

  predicate Feeds(p: Part, c: Part) {
    exists k :: k in p.provide && k in c.Keys()
  }

  function PartOf(s: Moment, x: FiberId): Part
    requires x in s.made && s.made[x] in s.parts
  {
    s.parts[s.made[x]]
  }

  function Rank(s: Moment, x: FiberId): nat {
    if x in s.rank then s.rank[x] + 1 else 0
  }

  ghost predicate Known(s: Moment, x: FiberId) {
    x in s.made && s.made[x] in s.parts
  }

  ghost predicate Able(s: Moment, x: FiberId) {
    Known(s, x) && x !in s.idle
  }

  /** The first may come up and provides something the second declares. */
  ghost predicate Over(s: Moment, p: FiberId, c: FiberId) {
    Able(s, p) && Known(s, c) && Feeds(PartOf(s, p), PartOf(s, c))
  }

  /** Consumers rank above their declared providers. */
  ghost predicate Sorted(s: Moment) {
    && s.rank.Keys == s.made.Keys
    && forall p, c | Over(s, p, c) :: Rank(s, p) < Rank(s, c)
  }

  /** Something it requires is provided by nobody who may come up. */
  ghost predicate Blocked(s: Moment, x: FiberId)
    requires Known(s, x)
  {
    exists k :: k in PartOf(s, x).RequiredKeys() && forall p :: !ProvidedBy(s, p, k)
  }

  // ---------------------------------------------------------------------------------------------
  // Resolution

  predicate Resolves(bs: Bonds, id: FiberId, k: Key) {
    k in bs && !bs[k].retiring && bs[k].provider != id
  }

  predicate Satisfiable(bs: Bonds, id: FiberId, p: Part) {
    forall k | k in p.RequiredKeys() :: Resolves(bs, id, k)
  }

  function Resolution(bs: Bonds, id: FiberId, p: Part): map<Key, FiberId> {
    map k | k in p.Keys() && Resolves(bs, id, k) :: bs[k].provider
  }

  predicate Live(bs: Bonds, view: map<Key, FiberId>) {
    forall k | k in view :: k in bs && bs[k].provider == view[k] && !bs[k].retiring
  }

  // ---------------------------------------------------------------------------------------------
  // What every step keeps

  ghost predicate ProvidedBy(s: Moment, p: FiberId, k: Key) {
    Able(s, p) && k in PartOf(s, p).provide
  }

  ghost predicate FiberOk(s: Moment, x: FiberId)
    requires x in s.fibers
  {
    var f := s.fibers[x];
    && Known(s, x) && f.part == s.made[x]
    && (forall k | k in f.committed :: k in PartOf(s, x).Keys() && ProvidedBy(s, f.committed[k], k))
    && (forall c | c in f.consumers :: Over(s, x, c))
    && (x in s.idle ==> f.state == Inactive && Blocked(s, x))
  }

  ghost predicate Wired(s: Moment) {
    && Sorted(s)
    && (forall x | x in s.fibers :: FiberOk(s, x))
    && (forall k | k in s.bonds :: ProvidedBy(s, s.bonds[k].provider, k))
    && (forall x | x in s.work :: Able(s, x))
  }

  /** A pending apply waits in the queue. */
  ghost predicate Queued(s: Moment) {
    forall x | x in s.fibers && s.fibers[x].state == Loading :: x in s.work
  }

  function Actives(s: Moment): set<FiberId> {
    set x | x in s.fibers && s.fibers[x].state == Active
  }

  function Leaving(s: Moment): set<FiberId> {
    set x | x in s.fibers && s.fibers[x].state == Unloading
  }

  // ---------------------------------------------------------------------------------------------
  // What a fiber may still cause

  function Pending(s: Moment, x: FiberId): nat {
    multiset(s.work)[x]
  }

  /** What a fiber still has to go through before it is at rest. */
  function Cost(s: Moment, x: FiberId): nat
    requires x in s.fibers
  {
    var f := s.fibers[x];
    2 * (Pending(s, x) + f.remaining) + (if Live(s.bonds, f.committed) then 0 else 1) + (if f.state == Unloading then 4 else 0)
  }

  /** An upper bound on the loads a fiber can start inside one operation. No step of a cascade raises it:
      an active fiber holds credit for every guard it may be given, an inactive one for one load. */
  function Credit(s: Moment, x: FiberId): nat
    requires x in s.fibers
  {
    var f := s.fibers[x];
    Pending(s, x) + f.remaining + (match f.state case Inactive => 1 case Active => |s.fibers| + 2 case _ => 0)
  }

  // ---------------------------------------------------------------------------------------------
  // How a moment may follow another inside an operation

  predicate SameBond(bs: Bonds, bs2: Bonds, k: Key) {
    (k in bs <==> k in bs2) && (k in bs ==> bs[k] == bs2[k])
  }

  predicate Untouched(v: Moment, w: Moment, x: FiberId) {
    && x in v.fibers && x in w.fibers
    && w.fibers[x].state == v.fibers[x].state
    && w.fibers[x].committed == v.fibers[x].committed
    && w.fibers[x].remaining <= v.fibers[x].remaining
    && Pending(w, x) == Pending(v, x)
  }

  /** Withdrawn before, finished since. */
  predicate Lowered(v: Moment, w: Moment, x: FiberId) {
    && x in v.fibers && x in w.fibers
    && v.fibers[x].state == Unloading && w.fibers[x].state != Unloading
    && Cost(w, x) < Cost(v, x)
  }

  /** Below the lowest disturbed rank nothing moves, and at that rank fibers only finish. */
  ghost predicate Floor(v: Moment, w: Moment, x: FiberId) {
    && (Rank(v, x) < w.low ==> Untouched(v, w, x))
    && (Rank(v, x) == w.low ==> Untouched(v, w, x) || Lowered(v, w, x))
    && (Rank(v, x) <= w.low && Known(v, x) ==> SameView(v, w, x))
  }

  ghost predicate SameView(v: Moment, w: Moment, x: FiberId)
    requires Known(v, x)
  {
    forall k | k in PartOf(v, x).Keys() :: SameBond(v.bonds, w.bonds, k)
  }

  ghost predicate LoweredAt(v: Moment, w: Moment, r: nat) {
    exists x :: Rank(v, x) == r && Lowered(v, w, x)
  }

  ghost predicate Beneath(v: Moment, w: Moment) {
    && w.low <= v.low
    && (forall x | x in v.fibers :: Floor(v, w, x))
    && (w.low < v.low ==> LoweredAt(v, w, w.low))
  }

  ghost predicate SameCast(v: Moment, w: Moment) {
    && w.parts == v.parts && w.rank == v.rank && w.idle == v.idle && w.made == v.made
    && w.fibers.Keys == v.fibers.Keys
    && forall x | x in v.fibers ::
         w.fibers[x].slot == v.fibers[x].slot && w.fibers[x].part == v.fibers[x].part && w.fibers[x].config == v.fibers[x].config
  }

  /** Nobody's credit grows, but for those in `owing` by one. */
  ghost predicate Paid(v: Moment, w: Moment, owing: set<FiberId>) {
    forall x | x in v.fibers && x in w.fibers :: Credit(w, x) <= Credit(v, x) + (if x in owing then 1 else 0)
  }

  ghost predicate Follows(v: Moment, w: Moment, owing: set<FiberId>) {
    && SameCast(v, w)
    && Beneath(v, w)
    && Paid(v, w, owing)
    && Actives(w) <= Actives(v)
    && (Queued(v) ==> Queued(w))
  }

  /** Nobody starts to leave unless somebody active does. */
  predicate Sinks(v: Moment, w: Moment) {
    Actives(w) <= Actives(v) && (Actives(w) == Actives(v) ==> Leaving(w) <= Leaving(v))
  }
}
