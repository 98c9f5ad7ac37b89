/**
  The data of the fiber engine (src/runtime.cpp) and the invariants its handlers keep.

  A fiber record is uniquely owned by the engine's fiber table, so it is a value here and the table
  is a map. Everything below speaks about plain values: the pool of fibers, the root scope's binding
  slots, and two pieces of bookkeeping that exist for the proofs only (publication stamps, the log).
 */
module Fibers {
  import opened Basics

  type FiberId = nat

  datatype ServiceId = ServiceId(name: string, version: nat)

  datatype Dependency = Dependency(key: ServiceId, required: bool)

  /** What a plugin descriptor declares. A key listed twice counts as required when either entry is. */
  datatype Component = Component(inject: seq<Dependency>, provide: set<ServiceId>) {

    function Keys(): set<ServiceId> {
      set i | 0 <= i < |inject| :: inject[i].key
    }

    function RequiredKeys(): set<ServiceId> {
      set i | 0 <= i < |inject| && inject[i].required :: inject[i].key
    }

    predicate RequiredOnly() {
      Keys() == RequiredKeys()
    }
  }

  /** A component that needs nothing. */
  function Source(k: ServiceId): Component {
    Component([], {k})
  }

  datatype FiberState = Inactive | Loading | Active | Unloading

  /** State of a binding slot. */
  datatype ProviderState = Landing | Serving | Retiring

  datatype Binding = Binding(provider: FiberId, state: ProviderState, available: bool)

  datatype FiberError = Unresolved(key: ServiceId) | Raised | Cancelled

  /**
    `activation` is the state of the fiber's activation object (Inactive when there is none): an
    unloading fiber whose activation still says Loading was diverted before it published and waits
    for its apply to return.
   */
  datatype Fiber = Fiber(
    spec: Component,
    state: FiberState,
    activation: FiberState,
    committed: map<ServiceId, FiberId>,
    consumers: set<FiberId>,
    remaining: nat,
    reactivate: int,
    applyFailed: bool,
    error: Option<FiberError>,
    stopRequested: bool)

  type Pool = map<FiberId, Fiber>
  type Slots = map<ServiceId, Binding>

  predicate Published(f: Fiber) {
    f.activation == Active || f.activation == Unloading
  }

  // ---------------------------------------------------------------------------------------------
  // The order of keys

  /** Names in dictionary order, then versions (include/araya/service.hpp:45-49). */
  predicate NameLess(a: string, b: string) {
    b != "" && (a == "" || a[0] < b[0] || (a[0] == b[0] && NameLess(a[1..], b[1..])))
  }

  predicate KeyLess(a: ServiceId, b: ServiceId) {
    NameLess(a.name, b.name) || (a.name == b.name && a.version < b.version)
  }

  lemma {:induction false} NamesCompare(a: string, b: string)
    ensures NameLess(a, b) || NameLess(b, a) || a == b
    ensures !(NameLess(a, b) && NameLess(b, a)) && (a == b ==> !NameLess(a, b))
  {
    if a != "" && b != "" {
      NamesCompare(a[1..], b[1..]);
      assert a == [a[0]] + a[1..] && b == [b[0]] + b[1..];
    }
  }

  lemma {:induction false} NamesChain(a: string, b: string, c: string)
    requires NameLess(a, b) && NameLess(b, c)
    ensures NameLess(a, c)
  {
    if a != "" && a[0] == b[0] == c[0] {
      NamesChain(a[1..], b[1..], c[1..]);
    }
  }

  /** Keys neither of which is less are the same. */
  lemma KeysCompare(a: ServiceId, b: ServiceId)
    ensures KeyLess(a, b) || KeyLess(b, a) || a == b
    ensures !(KeyLess(a, b) && KeyLess(b, a)) && (a == b ==> !KeyLess(a, b))
  {
    NamesCompare(a.name, b.name);
  }

  lemma KeysChain(a: ServiceId, b: ServiceId, c: ServiceId)
    requires !KeyLess(b, a) && !KeyLess(c, b)
    ensures !KeyLess(c, a)
  {
    NamesCompare(a.name, b.name);
    NamesCompare(b.name, c.name);
    NamesCompare(a.name, c.name);
    if NameLess(a.name, b.name) && NameLess(b.name, c.name) {
      NamesChain(a.name, b.name, c.name);
    }
  }

  // ---------------------------------------------------------------------------------------------
  // Resolution

  predicate Resolves(bs: Slots, id: FiberId, k: ServiceId) {
    k in bs && bs[k].state == Serving && bs[k].available && bs[k].provider != id
  }

  /** The first required key, in declared order, that does not resolve. */
  predicate FirstMissing(bs: Slots, id: FiberId, c: Component, k: ServiceId) {
    exists i :: 0 <= i < |c.inject| && c.inject[i] == Dependency(k, true) && !Resolves(bs, id, k)
      && forall j | 0 <= j < i && c.inject[j].required :: Resolves(bs, id, c.inject[j].key)
  }

  predicate Satisfiable(bs: Slots, id: FiberId, c: Component) {
    forall k | k in c.RequiredKeys() :: Resolves(bs, id, k)
  }

  function Resolution(bs: Slots, id: FiberId, c: Component): map<ServiceId, FiberId> {
    map k | k in c.Keys() && Resolves(bs, id, k) :: bs[k].provider
  }

  /** A fiber's target: the view it would commit to now, if every required key resolves. */
  predicate AtTarget(bs: Slots, id: FiberId, f: Fiber) {
    Satisfiable(bs, id, f.spec) && f.committed == Resolution(bs, id, f.spec)
  }

  /** Every committed entry is still served by the provider it names. */
  predicate ViewLive(bs: Slots, f: Fiber) {
    forall k | k in f.committed ::
      k in bs && bs[k].provider == f.committed[k] && bs[k].state == Serving && bs[k].available
  }

  // ---------------------------------------------------------------------------------------------
  // Invariants

  /** What is still owed inside a cascade: edges a finishing fiber has not erased from its
      providers yet, transitions whose closing call is still on the stack, fibers that are about to
      be re-evaluated, and torn down fibers whose re-entry is still on the stack. All empty between
      handlers. `watched` are the fibers that a handler found at their target, or on the way. */
  datatype Cascade = Cascade(
    pending: set<(FiberId, FiberId)>,
    frames: nat,
    dirty: set<FiberId>,
    watched: set<FiberId>,
    again: set<FiberId>)

  const REST := Cascade({}, 0, {}, {}, {})

  function Watching(watched: set<FiberId>): Cascade {
    Cascade({}, 0, {}, watched, {})
  }

  /** The engine's hypotheses on the mounted components. */
  predicate Disciplined(fs: Pool) {
    // one source per key
    && (forall p, q | p in fs && q in fs && p != q :: fs[p].spec.provide !! fs[q].spec.provide)
    && (forall p | p in fs :: Admissible(fs[p].spec))
  }

  /** At most one provided key; optional dependencies only where nothing is provided. */
  predicate Admissible(c: Component) {
    && (forall k1, k2 | k1 in c.provide && k2 in c.provide :: k1 == k2)
    && (c.provide != {} ==> c.RequiredOnly())
  }

  predicate Shape(id: FiberId, f: Fiber) {
    && -1 <= f.reactivate <= 1
    && (f.state == Inactive ==> f.activation == Inactive && f.committed == map[])
    && (f.state == Loading ==> f.activation == Loading && !f.stopRequested)
    && (f.state == Active ==> f.activation == Active)
    && (f.state == Unloading ==> f.activation == Unloading || (f.activation == Loading && f.stopRequested))
    && (f.activation != Unloading ==> f.remaining == 0)
    && (f.state != Inactive ==> f.error == None && f.spec.RequiredKeys() <= f.committed.Keys)
    && (f.applyFailed <==> f.error == Some(Raised))
    && f.committed.Keys <= f.spec.Keys()
    && id !in f.committed.Values
    && (forall k1, k2 | k1 in f.committed && k2 in f.committed && k1 != k2 :: f.committed[k1] != f.committed[k2])
  }

  predicate Shapes(fs: Pool) {
    forall id | id in fs :: Shape(id, fs[id])
  }

  predicate Relies(f: Fiber, p: FiberId) {
    Published(f) && p in f.committed.Values
  }

  function Reliers(fs: Pool, p: FiberId): set<FiberId> {
    set c | c in fs && Relies(fs[c], p)
  }

  function Owed(pending: set<(FiberId, FiberId)>, p: FiberId): set<FiberId> {
    set e | e in pending && e.1 == p :: e.0
  }

  /** The consumer sets are the inverse of the committed views of published fibers. */
  predicate Edges(fs: Pool, pending: set<(FiberId, FiberId)>) {
    && (forall p | p in fs :: fs[p].consumers == Reliers(fs, p) + Owed(pending, p))
    && (forall e | e in pending ::
          e.0 in fs && !Published(fs[e.0]) && e.1 in fs && Published(fs[e.1]) && fs[e.1].spec.provide != {})
  }

  /** A published fiber's providers are published, and their slots are still theirs. */
  predicate Hold(fs: Pool, bs: Slots) {
    forall c, k | c in fs && Published(fs[c]) && k in fs[c].committed ::
      HeldKey(fs, bs, fs[c].committed[k], k)
  }

  predicate HeldKey(fs: Pool, bs: Slots, p: FiberId, k: ServiceId) {
    p in fs && Published(fs[p]) && k in bs && bs[k].provider == p && bs[k].available
  }

  /** The guard counter of a withdrawing fiber counts exactly its consumers. */
  predicate Counters(fs: Pool) {
    forall p | p in fs && fs[p].activation == Unloading :: fs[p].remaining == |fs[p].consumers|
  }

  /** Committed edges between published fibers go down in publication order. */
  ghost predicate Stamped(fs: Pool, stamps: map<FiberId, nat>) {
    && (forall c | c in fs && Published(fs[c]) :: c in stamps)
    && (forall c, p | c in fs && Relies(fs[c], p) :: p in stamps && stamps[p] < stamps[c])
  }

  function SlotState(activation: FiberState): ProviderState
    requires activation != Inactive
  {
    match activation case Loading => Landing case Active => Serving case Unloading => Retiring
  }

  /** A bound slot belongs to the fiber that declares its key and mirrors that fiber's progress. */
  predicate SlotsOk(fs: Pool, bs: Slots) {
    forall k | k in bs ::
      var p := bs[k].provider;
      p in fs && k in fs[p].spec.provide && fs[p].activation != Inactive
      && bs[k].state == SlotState(fs[p].activation)
  }

  /** No lost wake-up: a waiting fiber with required dependencies only cannot be satisfied. */
  predicate Waiting(fs: Pool, bs: Slots, dirty: set<FiberId>) {
    forall x | x in fs && x !in dirty && fs[x].state == Inactive && fs[x].spec.RequiredOnly()
               && fs[x].reactivate >= 0 && !fs[x].applyFailed ::
      !Satisfiable(bs, x, fs[x].spec)
  }

  /** A fiber with required dependencies only withdraws because it is retired or lost a provider. */
  predicate Doomed(fs: Pool, bs: Slots) {
    forall x | x in fs && fs[x].state == Unloading && fs[x].spec.RequiredOnly() ::
      fs[x].reactivate == -1 || (fs[x].activation == Unloading && !Satisfiable(bs, x, fs[x].spec))
  }

  predicate ViewFull(bs: Slots, x: FiberId, f: Fiber) {
    forall k | k in f.spec.Keys() && Resolves(bs, x, k) :: k in f.committed
  }

  /** A fiber that misses nothing where it is: it waits for a required key, or its view has every
      declared key that resolves, or it is in motion. */
  predicate Minded(bs: Slots, x: FiberId, f: Fiber) {
    && (f.state == Inactive && f.reactivate >= 0 && !f.applyFailed ==> !Satisfiable(bs, x, f.spec))
    && (f.state == Active && f.reactivate >= 0 ==> ViewFull(bs, x, f))
  }

  /** Optional dependencies or not: a watched fiber that nobody is about to evaluate misses nothing,
      whoever is to re-enter still asks for it, and a fiber withdraws without asking to come back only
      when it cannot. */
  predicate Heeded(fs: Pool, bs: Slots, cx: Cascade) {
    && (forall x | x in cx.watched && x in fs && x !in cx.dirty && x !in cx.again :: Minded(bs, x, fs[x]))
    && (forall x | x in cx.again :: x in fs && !Published(fs[x]) && fs[x].reactivate != 0)
    && (forall x | x in fs && fs[x].activation == Unloading && fs[x].reactivate == 0 :: !Satisfiable(bs, x, fs[x].spec))
  }

  /** Everything above, at any point of a cascade. */
  ghost predicate Inv(fs: Pool, bs: Slots, stamps: map<FiberId, nat>, cx: Cascade) {
    && Disciplined(fs)
    && Shapes(fs)
    && Edges(fs, cx.pending)
    && Hold(fs, bs)
    && Counters(fs)
    && Stamped(fs, stamps)
    && SlotsOk(fs, bs)
    && Waiting(fs, bs, cx.dirty)
    && Doomed(fs, bs)
    && Heeded(fs, bs, cx)
  }

  function Moving(fs: Pool): set<FiberId> {
    set x | x in fs && (fs[x].state == Loading || fs[x].state == Unloading)
  }

  function Actives(fs: Pool): set<FiberId> {
    set x | x in fs && fs[x].activation == Active
  }

  function Withdrawing(fs: Pool): set<FiberId> {
    set x | x in fs && fs[x].activation == Unloading
  }

  // ---------------------------------------------------------------------------------------------
  // The observable order of publications and teardowns

  datatype Event = PublishedView(id: FiberId, view: map<ServiceId, FiberId>) | TornDown(id: FiberId)

  /** The views held after a log: published and not yet torn down. */
  ghost function Held(log: seq<Event>): map<FiberId, map<ServiceId, FiberId>> {
    if log == [] then map[] else HeldAfter(Held(log[..|log| - 1]), log[|log| - 1])
  }

  function HeldAfter(held: map<FiberId, map<ServiceId, FiberId>>, e: Event): map<FiberId, map<ServiceId, FiberId>> {
    match e
    case PublishedView(id, view) => held[id := view]
    case TornDown(id) => held - {id}
  }

  /** Ordered withdrawal: whenever a fiber is torn down it was published, and no view held at that
      moment names it; and nothing is published twice without a teardown in between. */
  ghost predicate Ordered(log: seq<Event>) {
    forall i | 0 <= i < |log| :: Legal(Held(log[..i]), log[i])
  }

  ghost predicate Legal(held: map<FiberId, map<ServiceId, FiberId>>, e: Event) {
    match e
    case PublishedView(id, _) => id !in held
    case TornDown(id) => id in held && !Named(held, id)
  }

  ghost predicate Named(held: map<FiberId, map<ServiceId, FiberId>>, p: FiberId) {
    exists c :: c in held && p in held[c].Values
  }

  function Views(fs: Pool): map<FiberId, map<ServiceId, FiberId>> {
    map c | c in fs && Published(fs[c]) :: fs[c].committed
  }

  ghost predicate LogOk(log: seq<Event>, fs: Pool) {
    Held(log) == Views(fs) && Ordered(log)
  }
}
