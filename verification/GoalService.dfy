/**
  The goal service of one session (plugins/goal/src/goal.cpp:374-640) and the round driver that
  schedules and fences goal rounds (plugins/goal-round-driver/src/goal_round_driver.cpp).
 */
module GoalService {
  import opened Basics
  import opened JsonValues
  import opened Goals

  datatype Activation = Armed | Disarmed

  datatype Rejection =
    | NotLive | NotFound | AlreadyExists | StaleRevision | InvalidObjective | InvalidMaxRounds
    | InvalidBlockReason | InvalidEdit | InvalidTransition

  /** The operations of the service; `now` is the clock it reads, `id` the identifier it mints. */
  datatype Request =
    | ToCreate(objective: string, max: Option<Uint64>, id: string, now: Int64)
    | ToEdit(ref: Ref, edited: Option<string>, max: Option<Uint64>, now: Int64)
    | ToPause(ref: Ref, now: Int64)
    | ToResume(ref: Ref, now: Int64)
    | ToComplete(ref: Ref, now: Int64)
    | ToBlock(ref: Ref, reason: Reason, now: Int64)
    | ToClear(ref: Ref, now: Int64)

  function Later(a: Int64, b: Int64): Int64 {
    if a > b then a else b
  }

  function WithPhase(g: Goal, p: Phase): Goal {
    g.(revision := Next(g.revision), phase := p, reason := None)
  }

  /** The compare-and-set prologue: the current goal, when `ref` names its revision. */
  function Expected(s: Projection, ref: Ref): Result<Goal, Rejection> {
    if s.failure.Some? then Err(InvalidTransition)
    else if s.current.None? then Err(NotFound)
    else if ref.id != s.current.value.id || ref.revision != s.current.value.revision then Err(StaleRevision)
    else Ok(s.current.value)
  }

  function Current(s: Projection, op: Operation, g: Goal, now: Int64): Change {
    Snapshot(op, g, s.rounds, s.createdAt, Later(now, s.updatedAt))
  }

  function ProposeCreate(s: Projection, q: Request, cap: Uint64): Result<Change, Rejection>
    requires q.ToCreate?
  {
    var objective := Trim(q.objective);
    var max := if q.max.Some? then q.max.value else cap;
    if objective == "" then Err(InvalidObjective)
    else if max < 1 then Err(InvalidMaxRounds)
    else if s.failure.Some? then Err(InvalidTransition)
    else if s.current.Some? && s.current.value.phase != Completed then Err(AlreadyExists)
    else Ok(Snapshot(Create, Goal(q.id, 1, objective, Active, None, max), 0, q.now, q.now))
  }

  function ProposeEdit(s: Projection, g: Goal, q: Request): Result<Change, Rejection>
    requires q.ToEdit?
  {
    if q.edited.None? && q.max.None? then Err(InvalidEdit)
    else if q.edited.Some? && Trim(q.edited.value) == "" then Err(InvalidObjective)
    else if q.max.Some? && q.max.value < 1 then Err(InvalidMaxRounds)
    else
      Ok(Current(s, Edit, g.(revision := Next(g.revision),
                             objective := if q.edited.Some? then Trim(q.edited.value) else g.objective,
                             maxRounds := if q.max.Some? then q.max.value else g.maxRounds), q.now))
  }

  function ProposeResume(s: Projection, g: Goal, a: Activation, now: Int64): Result<Change, Rejection> {
    if g.phase == Completed then Err(InvalidTransition)
    else if g.phase == Active && a == Armed then Err(InvalidTransition)
    else if s.rounds >= g.maxRounds then Err(InvalidTransition)
    else Ok(Current(s, Resume, WithPhase(g, Active), now))
  }

  function ProposeBlock(s: Projection, g: Goal, reason: Reason, now: Int64): Result<Change, Rejection> {
    if g.phase != Active then Err(InvalidTransition)
    else if Trim(reason.code) == "" || Trim(reason.message) == "" then Err(InvalidBlockReason)
    else Ok(Current(s, Block, WithPhase(g, Blocked).(reason := Some(Reason(Trim(reason.code), Trim(reason.message)))), now))
  }

  /** The change an operation commits, or why it is refused. */
  function Propose(s: Projection, a: Activation, q: Request, cap: Uint64): Result<Change, Rejection> {
    if q.ToCreate? then ProposeCreate(s, q, cap)
    else
      match Expected(s, q.ref)
      case Err(e) => Err(e)
      case Ok(g) =>
        match q
        case ToEdit(_, _, _, _) => ProposeEdit(s, g, q)
        case ToPause(_, now) => if g.phase != Active then Err(InvalidTransition) else Ok(Current(s, Pause, WithPhase(g, Paused), now))
        case ToResume(_, now) => ProposeResume(s, g, a, now)
        case ToComplete(_, now) =>
          if g.phase == Completed then Err(InvalidTransition) else Ok(Current(s, Complete, WithPhase(g, Completed), now))
        case ToBlock(_, reason, now) => ProposeBlock(s, g, reason, now)
        case ToClear(_, now) => Ok(Cleared(Ref(g.id, Next(g.revision)), Later(now, s.updatedAt)))
  }

  // ---------------------------------------------------------------------------------------------
  // The service never trips its own projection

  /** What an operation needs from outside: a fresh identifier and a clock that is not negative, or
      a revision counter that is not exhausted. */
  predicate Tolerable(s: Projection, q: Request) {
    if q.ToCreate? then q.id != "" && q.id !in s.seen && q.now >= 0
    else s.current.Some? && s.current.value.revision < TWO_64 - 1
  }

  lemma NextPositive(n: Uint64)
    ensures Next(n) >= 1 <==> n < TWO_64 - 1
  {}

  lemma ProposedEncodable(s: Projection, a: Activation, q: Request, cap: Uint64)
    requires Kept(s) && Propose(s, a, q, cap).Ok?
    requires q.ToCreate? ==> q.id !in s.seen
    ensures Encodable(Propose(s, a, q, cap).value) <==> Tolerable(s, q)
  {
    if q.ToCreate? {
      TrimNormalises(q.objective);
    } else {
      NextPositive(s.current.value.revision);
      if q.ToEdit? && q.edited.Some? {
        TrimNormalises(q.edited.value);
      }
      if q.ToBlock? {
        TrimNormalises(q.reason.message);
      }
    }
  }

  lemma ProposedAdmitted(s: Projection, a: Activation, q: Request, cap: Uint64)
    requires Kept(s) && Propose(s, a, q, cap).Ok?
    ensures ChangedBy(s, Propose(s, a, q, cap).value).Ok? <==> (q.ToCreate? ==> q.id !in s.seen)
  {}

  /** Every change an operation commits is decoded unchanged and accepted by the projection, exactly
      when the operation was given what it needs. */
  lemma ServiceNeverTrips(s: Projection, a: Activation, q: Request, cap: Uint64)
    requires Kept(s) && Propose(s, a, q, cap).Ok?
    ensures
      var change := Propose(s, a, q, cap).value;
      var after := Project(s, Changed(Encode(change)));
      && (after.failure.None? <==> Tolerable(s, q))
      && (Tolerable(s, q) ==> Decode(Encode(change)) == Ok(change) && ChangedBy(s, change) == Ok(after))
  {
    hide Encode, Decode, ChangedBy, Propose, Encodable, Identified, Proper;
    var change := Propose(s, a, q, cap).value;
    ProposedHealthy(s, a, q, cap);
    ProposedAdmitted(s, a, q, cap);
    ChangeRoundTrip(change);
    AcceptedIsIdentified(change);
    AdmittedHealthy(s, change);
    if q.ToCreate? && q.id in s.seen {
      if Decode(Encode(change)).Ok? {
        SeenRefused(s, a, q, cap);
      }
    } else {
      ProposedEncodable(s, a, q, cap);
      ProposedIdentified(s, a, q, cap);
    }
  }

  /** A creation read before the epoch by the clock is proposed, and its own event is then refused. */
  lemma RefusedRequest(id: string, cap: Uint64)
    requires cap >= 1
    ensures
      var q := ToCreate("x", None, id, -1);
      && Kept(NOTHING) && Propose(NOTHING, Disarmed, q, cap).Ok?
      && Project(NOTHING, Changed(Encode(Propose(NOTHING, Disarmed, q, cap).value))).failure.Some?
  {
    hide Encode, Project;
    NothingKept();
    assert Trim("x") == "x";
    ServiceNeverTrips(NOTHING, Disarmed, ToCreate("x", None, id, -1), cap);
  }

  /** So is one whose minted identifier has been used before. */
  lemma RepeatedIdentifier(s: Projection, a: Activation, id: string, now: Int64, cap: Uint64)
    requires Kept(s) && s.failure.None? && s.current.None? && id in s.seen && cap >= 1
    ensures
      var q := ToCreate("x", None, id, now);
      && Propose(s, a, q, cap).Ok?
      && Project(s, Changed(Encode(Propose(s, a, q, cap).value))).failure.Some?
  {
    hide Encode, Project;
    assert Trim("x") == "x";
    ServiceNeverTrips(s, a, ToCreate("x", None, id, now), cap);
  }

  lemma ProposedHealthy(s: Projection, a: Activation, q: Request, cap: Uint64)
    requires Propose(s, a, q, cap).Ok?
    ensures s.failure.None?
  {}

  lemma AdmittedHealthy(s: Projection, c: Change)
    ensures ChangedBy(s, c).Ok? ==> ChangedBy(s, c).value.failure == s.failure
  {}

  lemma ProposedIdentified(s: Projection, a: Activation, q: Request, cap: Uint64)
    requires Kept(s) && Propose(s, a, q, cap).Ok?
    requires q.ToCreate? ==> q.id !in s.seen
    ensures Identified(Propose(s, a, q, cap).value) ==> Tolerable(s, q)
  {
    if !q.ToCreate? {
      NextPositive(s.current.value.revision);
    }
  }

  lemma SeenRefused(s: Projection, a: Activation, q: Request, cap: Uint64)
    requires Propose(s, a, q, cap).Ok? && q.ToCreate? && q.id in s.seen
    requires Decode(Encode(Propose(s, a, q, cap).value)).Ok?
    ensures ChangedBy(s, Decode(Encode(Propose(s, a, q, cap).value)).value).Err?
  {
    hide DecodeSnapshot, Decode, GoalJson, DecodeClear, Trim;
    var c := Propose(s, a, q, cap).value;
    Envelope(c);
    SnapshotIdentity(c);
  }

  /** What a request asks for, done: from `s` to `t`. */
  predicate Does(q: Request, cap: Uint64, s: Projection, t: Projection) {
    match q
    case ToCreate(objective, max, id, now) =>
      && t.current == Some(Goal(id, 1, Trim(objective), Active, None, if max.Some? then max.value else cap))
      && t.rounds == 0 && t.createdAt == t.updatedAt == now && t.seen == s.seen + [id]
    case ToClear(ref, _) =>
      && t.current.None? && t.rounds == 0 && t.seen == s.seen
      && t.lastRef.Some? && t.lastRef.value.id == ref.id && t.lastRef.value.revision == ref.revision + 1
    case _ =>
      && s.current.Some? && t.current.Some? && t.seen == s.seen
      && t.rounds == s.rounds && t.createdAt == s.createdAt && t.updatedAt == (if q.now > s.updatedAt then q.now else s.updatedAt)
      && Moves(q, s.current.value, t.current.value)
  }

  /** The current goal before and after: the next revision of the goal named, changed as asked and no more. */
  predicate Moves(q: Request, g: Goal, h: Goal)
    requires !q.ToCreate?
  {
    && h.id == g.id == q.ref.id && h.revision == q.ref.revision + 1 == g.revision + 1
    && match q
       case ToEdit(_, edited, max, _) =>
         && h.phase == g.phase && h.reason == g.reason
         && h.objective == (if edited.Some? then Trim(edited.value) else g.objective)
         && h.maxRounds == (if max.Some? then max.value else g.maxRounds)
       case ToPause(_, _) => SameDefinition(g, h) && g.phase == Active && h.phase == Paused && h.reason == None
       case ToResume(_, _) => SameDefinition(g, h) && g.phase != Completed && h.phase == Active && h.reason == None
       case ToComplete(_, _) => SameDefinition(g, h) && g.phase != Completed && h.phase == Completed && h.reason == None
       case ToBlock(_, reason, _) =>
         && SameDefinition(g, h) && g.phase == Active && h.phase == Blocked
         && h.reason == Some(Reason(Trim(reason.code), Trim(reason.message)))
       case _ => true
  }

  /** The event says that it is of the request's kind. */
  predicate OfKind(q: Request, data: Json) {
    && Decode(data).Ok?
    && var c := Decode(data).value;
       match q
       case ToCreate(_, _, _, _) => c.Snapshot? && c.operation == Create
       case ToEdit(_, _, _, _) => c.Snapshot? && c.operation == Edit
       case ToPause(_, _) => c.Snapshot? && c.operation == Pause
       case ToResume(_, _) => c.Snapshot? && c.operation == Resume
       case ToComplete(_, _) => c.Snapshot? && c.operation == Complete
       case ToBlock(_, _, _) => c.Snapshot? && c.operation == Block
       case ToClear(_, _) => c.Cleared?
  }

  /** What a request needs of the goal it names, and what it is refused with. */
  predicate Unfitting(s: Projection, a: Activation, q: Request, g: Goal, e: Rejection) {
    match q
    case ToCreate(_, _, _, _) => false
    case ToEdit(_, edited, max, _) =>
      if edited.None? && max.None? then e == InvalidEdit
      else if edited.Some? && Trim(edited.value) == "" then e == InvalidObjective
      else max.Some? && max.value == 0 && e == InvalidMaxRounds
    case ToPause(_, _) => g.phase != Active && e == InvalidTransition
    case ToResume(_, _) => (g.phase == Completed || (g.phase == Active && a == Armed) || s.rounds >= g.maxRounds) && e == InvalidTransition
    case ToComplete(_, _) => g.phase == Completed && e == InvalidTransition
    case ToBlock(_, reason, _) =>
      if g.phase != Active then e == InvalidTransition
      else (Trim(reason.code) == "" || Trim(reason.message) == "") && e == InvalidBlockReason
    case ToClear(_, _) => false
  }

  /** Why a request is refused: the first reason there is, in this order. */
  predicate Refuses(s: Projection, a: Activation, q: Request, cap: Uint64, e: Rejection) {
    if q.ToCreate? then
      if Trim(q.objective) == "" then e == InvalidObjective
      else if (if q.max.Some? then q.max.value == 0 else cap == 0) then e == InvalidMaxRounds
      else if s.failure.Some? then e == InvalidTransition
      else s.current.Some? && s.current.value.phase in {Active, Paused, Blocked} && e == AlreadyExists
    else
      if s.failure.Some? then e == InvalidTransition
      else if s.current.None? then e == NotFound
      else if Ref(s.current.value.id, s.current.value.revision) != q.ref then e == StaleRevision
      else Unfitting(s, a, q, s.current.value, e)
  }

  /** A request is refused exactly when there is a reason, and with that reason. */
  lemma RefusedExactly(s: Projection, a: Activation, q: Request, cap: Uint64)
    ensures Propose(s, a, q, cap).Ok? <==> forall e :: !Refuses(s, a, q, cap, e)
    ensures Propose(s, a, q, cap).Err? ==> Refuses(s, a, q, cap, Propose(s, a, q, cap).error)
  {
    hide Trim;
    if Propose(s, a, q, cap).Err? {
      assert Refuses(s, a, q, cap, Propose(s, a, q, cap).error);
    }
  }

  /** What a committed operation leaves behind. */
  lemma OperationEffect(s: Projection, a: Activation, q: Request, cap: Uint64)
    requires Kept(s) && Propose(s, a, q, cap).Ok? && Tolerable(s, q)
    ensures
      var data := Encode(Propose(s, a, q, cap).value);
      var t := Project(s, Changed(data));
      && t.failure.None? && Kept(t) && Does(q, cap, s, t) && OfKind(q, data)
      && (q.ToResume? ==> t.rounds < t.current.value.maxRounds)
  {
    hide Encode, Decode, Project, Proper, Trim;
    ServiceNeverTrips(s, a, q, cap);
    ProjectKeeps(s, Changed(Encode(Propose(s, a, q, cap).value)));
  }

  /** Where the projection accepts the event, that is what has happened. */
  lemma AcceptedDoes(s: Projection, a: Activation, q: Request, cap: Uint64)
    requires Kept(s) && Propose(s, a, q, cap).Ok?
    ensures
      var data := Encode(Propose(s, a, q, cap).value);
      var t := Project(s, Changed(data));
      t.failure.None? ==> Does(q, cap, s, t) && OfKind(q, data)
  {
    hide Encode, Decode, Project, Proper, Propose, Does, OfKind;
    ServiceNeverTrips(s, a, q, cap);
    if Tolerable(s, q) {
      OperationEffect(s, a, q, cap);
    }
  }

  // ---------------------------------------------------------------------------------------------
  // Rounds: scheduling and the fence

  /** The source of the round the driver schedules: the next one of an active, armed goal. */
  function Scheduled(s: Projection, a: Activation): Option<map<string, Json>> {
    if s.failure.Some? || s.current.None? || s.current.value.phase != Active || a != Armed || s.rounds >= s.current.value.maxRounds
    then None
    else Some(map["kind" := Text("goal"), "goalId" := Text(s.current.value.id),
                  "revision" := Unsigned(s.current.value.revision), "round" := Unsigned(Next(s.rounds))])
  }

  /** What the pre-step fence asks of a goal message. */
  predicate Passes(s: Projection, a: Activation, src: map<string, Json>) {
    && s.failure.None? && s.current.Some? && s.current.value.phase == Active && a == Armed
    && GetString(src, "goalId") == s.current.value.id
    && GetUint(src, "revision") == s.current.value.revision
    && GetUint(src, "round") == Next(s.rounds)
  }

  /** A message that passes the fence is the next round, unless the budget is spent. */
  lemma PassedIsNextRound(s: Projection, a: Activation, src: map<string, Json>)
    requires Kept(s) && Passes(s, a, src)
    ensures RoundBy(s, src).Ok? <==> s.rounds < s.current.value.maxRounds
    ensures RoundBy(s, src).Ok? ==> RoundBy(s, src).value == s.(rounds := Next(s.rounds))
  {}

  lemma ScheduledReads(s: Projection, a: Activation)
    requires Scheduled(s, a).Some?
    ensures
      var src := Scheduled(s, a).value;
      && GetString(src, "goalId") == s.current.value.id && GetUint(src, "revision") == s.current.value.revision
      && GetUint(src, "round") == s.rounds + 1
  {}

  /** Fence soundness: a round scheduled at one point of the log that passes the fence at a later one
      is admitted there, within the budget, whatever was appended in between. The fence does not
      look at the budget; it need not, since every edit moves the revision. */
  lemma FenceSound(before: seq<Event>, after: seq<Event>, a: Activation, b: Activation)
    requires before <= after && Scheduled(Replay(before), a).Some?
    requires Passes(Replay(after), b, Scheduled(Replay(before), a).value)
    ensures
      var s, src := Replay(after), Scheduled(Replay(before), a).value;
      RoundBy(s, src) == Ok(s.(rounds := s.rounds + 1)) && s.rounds + 1 <= s.current.value.maxRounds
  {
    hide RoundBy, Scheduled, Proper;
    var s0, s, src := Replay(before), Replay(after), Scheduled(Replay(before), a).value;
    ScheduledReads(s0, a);
    ScheduledWithin(s0, a);
    RevisionNamesSnapshot(before, after);
    ReplayKeeps(after);
    PassedIsNextRound(s, b, src);
    assert s.current.value == s0.current.value && Next(s.rounds) == s0.rounds + 1;
  }

  lemma ScheduledWithin(s: Projection, a: Activation)
    requires Scheduled(s, a).Some?
    ensures s.current.Some? && s.rounds < s.current.value.maxRounds
  {}

  function GoalCount(batch: seq<Json>): nat {
    if batch == [] then 0 else GoalCount(batch[..|batch| - 1]) + if GoalSource(batch[|batch| - 1]).Some? then 1 else 0
  }

  function ProjectBatch(s: Projection, batch: seq<Json>): Projection {
    if batch == [] then s else Project(ProjectBatch(s, batch[..|batch| - 1]), UserMessage(batch[|batch| - 1]))
  }

  /** The rounds the current goal may still run at one revision: the next one, if the budget has it. */
  function Open(s: Projection): nat {
    if s.current.Some? && s.rounds < s.current.value.maxRounds then 1 else 0
  }

  /** A batch whose goal messages all pass the fence is admitted exactly when it has none of them, or one
      within the budget: a second one names the same round again. */
  lemma {:induction false} BatchAdmitted(s: Projection, a: Activation, batch: seq<Json>)
    requires Kept(s) && s.failure.None?
    requires forall i | 0 <= i < |batch| :: GoalSource(batch[i]).Some? ==> Passes(s, a, GoalSource(batch[i]).value)
    ensures ProjectBatch(s, batch).failure.None? <==> GoalCount(batch) <= Open(s)
    ensures GoalCount(batch) <= Open(s) ==> ProjectBatch(s, batch) == if GoalCount(batch) == 0 then s else s.(rounds := s.rounds + 1)
    decreases |batch|
  {
    hide RoundBy, GoalSource, Proper, Passes;
    if batch != [] {
      var l := |batch| - 1;
      BatchAdmitted(s, a, batch[..l]);
      if GoalSource(batch[l]).Some? {
        var src := GoalSource(batch[l]).value;
        assert s.current.Some? by { PassedCurrent(s, a, src); }
        PassedIsNextRound(s, a, src);
        if Open(s) > 0 {
          RoundTwice(s, a, src);
        }
      }
    }
  }

  lemma PassedCurrent(s: Projection, a: Activation, src: map<string, Json>)
    requires Passes(s, a, src)
    ensures s.current.Some?
  {}

  lemma RoundTwice(s: Projection, a: Activation, src: map<string, Json>)
    requires Kept(s) && Passes(s, a, src) && s.rounds < s.current.value.maxRounds
    ensures RoundBy(s.(rounds := s.rounds + 1), src).Err?
  {}

  datatype View = View(current: Option<Goal>, rounds: Uint64, createdAt: Int64, updatedAt: Int64, activation: Activation)

  function ViewOf(s: Projection, a: Activation): View {
    View(s.current, s.rounds, s.createdAt, s.updatedAt, a)
  }

  /** One session: its log, the live projection, and the process-local activation. */
  class Service {
    const cap: Uint64
    var live: bool
    var log: seq<Event>
    var state: Projection
    var activation: Activation

    /** The live projection is what a replay of the log yields. */
    ghost predicate Valid()
      reads this
    {
      state == Replay(log)
    }

    constructor (cap: Uint64)
      ensures Valid() && live && log == [] && activation == Disarmed && this.cap == cap
    {
      this.cap := cap;
      live, log, state, activation := true, [], NOTHING, Disarmed;
    }

    /** What an operation did: refused without a trace, or committed as one event. */
    twostate predicate Served(q: Request, armed: Activation, new r: Result<View, Rejection>)
      reads this
    {
      && live == old(live)
      && (if !live then r == Err(NotLive) && log == old(log) && state == old(state) && activation == old(activation)
          else
            match Propose(old(state), old(activation), q, cap)
            case Err(e) => r == Err(e) && log == old(log) && state == old(state) && activation == old(activation)
            case Ok(c) =>
              && log == old(log) + [Changed(Encode(c))]
              && state == Project(old(state), Changed(Encode(c)))
              && activation == armed
              && r == if state.failure.Some? then Err(InvalidTransition) else Ok(ViewOf(state, armed)))
      && (r.Ok? ==>
            && Does(q, cap, old(state), state) && activation == armed
            && |log| == |old(log)| + 1 && log[|old(log)|].Changed? && OfKind(q, log[|old(log)|].data))
      && (live && |log| == |old(log)| && r.Err? ==> Refuses(old(state), old(activation), q, cap, r.error))
    }

    // -------------------------------------------------------------------------------------------
    // The projection cell

    /** Applies a change in place; a refused one leaves no trace. */
    method ApplyChange(c: Change) returns (fault: Option<Fault>)
      modifies this`state
      ensures match ChangedBy(old(state), c)
              case Ok(t) => fault == None && state == t
              case Err(f) => fault == Some(f) && state == old(state)
    {
      if c.Cleared? {
        if state.current.None? {
          return Some(NoCurrent);
        }
        if c.ref.id != state.current.value.id || c.ref.revision != Next(state.current.value.revision) {
          return Some(WrongRevision);
        }
        if c.at < state.updatedAt {
          return Some(Backwards);
        }
        state := state.(current := None);
        state := state.(rounds := 0, createdAt := 0, updatedAt := 0);
        state := state.(lastRef := Some(c.ref));
        return None;
      }
      var g := c.goal;
      if c.operation == Create {
        if g.revision != 1 || g.phase != Active || c.rounds != 0 || g.id in state.seen
           || (state.current.Some? && state.current.value.phase != Completed) {
          return Some(NotFresh);
        }
        state := state.(seen := state.seen + [g.id]);
      } else {
        if state.current.None? {
          return Some(NoCurrent);
        }
        var cur := state.current.value;
        if g.id != cur.id || g.revision != Next(cur.revision) {
          return Some(WrongRevision);
        }
        if c.createdAt != state.createdAt || c.updatedAt < state.updatedAt || c.rounds != state.rounds {
          return Some(WrongCounters);
        }
        var refused := PhaseFault(c.operation, cur, g, state.rounds);
        if refused.Some? {
          return refused;
        }
      }
      state := state.(current := Some(g));
      state := state.(rounds := c.rounds);
      state := state.(createdAt := c.createdAt, updatedAt := c.updatedAt);
      state := state.(lastRef := Some(Ref(g.id, g.revision)));
      return None;
    }

    /** Drives the projection with one event; the first failure is captured and sticks. */
    method Drive(e: Event)
      modifies this`state
      ensures state == Project(old(state), e)
    {
      hide Decode, ChangedBy;
      if state.failure.Some? {
        return;
      }
      match e {
        case Unrelated =>
        case UserMessage(data) =>
          var src := GoalSource(data);
          if src.Some? {
            match RoundBy(state, src.value)
            case Ok(t) => state := t;
            case Err(f) => state := state.(failure := Some(f));
          }
        case Changed(data) =>
          match Decode(data)
          case Err(f) => state := state.(failure := Some(f));
          case Ok(c) =>
            var fault := ApplyChange(c);
            if fault.Some? {
              state := state.(failure := fault);
            }
      }
    }

    method Append(e: Event)
      requires Valid()
      modifies this`log, this`state
      ensures Valid() && log == old(log) + [e] && state == Project(old(state), e)
    {
      hide Project;
      log := log + [e];
      Drive(e);
      assert log[..|log| - 1] == old(log);
    }

    // -------------------------------------------------------------------------------------------
    // Operations

    method Commit(c: Change, armed: Activation) returns (r: Result<View, Rejection>)
      requires Valid() && live
      modifies this`log, this`state, this`activation
      ensures Valid() && log == old(log) + [Changed(Encode(c))]
      ensures state == Project(old(state), Changed(Encode(c))) && activation == armed
      ensures r == if state.failure.Some? then Err(InvalidTransition) else Ok(ViewOf(state, armed))
    {
      hide Project, Encode;
      activation := armed;
      Append(Changed(Encode(c)));
      if state.failure.Some? {
        return Err(InvalidTransition);
      }
      return Ok(ViewOf(state, armed));
    }

    method CommitCurrent(op: Operation, g: Goal, now: Int64, armed: Activation) returns (r: Result<View, Rejection>)
      requires Valid() && live
      modifies this`log, this`state, this`activation
      ensures var c := Current(old(state), op, g, now);
        && Valid() && log == old(log) + [Changed(Encode(c))]
        && state == Project(old(state), Changed(Encode(c))) && activation == armed
        && r == if state.failure.Some? then Err(InvalidTransition) else Ok(ViewOf(state, armed))
    {
      hide Project, Encode;
      r := Commit(Snapshot(op, g, state.rounds, state.createdAt, if now > state.updatedAt then now else state.updatedAt), armed);
    }

    /** The shared prologue: the session is live, its projection healthy, and `ref` current. */
    method ExpectCurrent(ref: Ref) returns (refused: Option<Rejection>)
      ensures !live ==> refused == Some(NotLive)
      ensures live ==> match Expected(state, ref) case Err(e) => refused == Some(e) case Ok(g) => refused == None
    {
      if !live {
        return Some(NotLive);
      }
      if state.failure.Some? {
        return Some(InvalidTransition);
      }
      if state.current.None? {
        return Some(NotFound);
      }
      if ref.id != state.current.value.id || ref.revision != state.current.value.revision {
        return Some(StaleRevision);
      }
      return None;
    }

    lemma Effects(q: Request)
      requires Valid()
      ensures
        match Propose(state, activation, q, cap)
        case Err(e) => Refuses(state, activation, q, cap, e)
        case Ok(c) =>
          var t := Project(state, Changed(Encode(c)));
          t.failure.None? ==> Does(q, cap, state, t) && OfKind(q, Encode(c))
    {
      hide Project, Encode, Does, OfKind, Refuses, Propose;
      ReplayKeeps(log);
      RefusedExactly(state, activation, q, cap);
      if Propose(state, activation, q, cap).Ok? {
        AcceptedDoes(state, activation, q, cap);
      }
    }

    method CreateGoal(objective: string, max: Option<Uint64>, id: string, now: Int64) returns (r: Result<View, Rejection>)
      requires Valid()
      modifies this`log, this`state, this`activation
      ensures Valid() && Served(ToCreate(objective, max, id, now), Armed, r)
    {
      hide Project, Encode, Trim, Does, OfKind, Refuses;
      Effects(ToCreate(objective, max, id, now));
      if !live {
        return Err(NotLive);
      }
      var normalized := Trim(objective);
      if normalized == "" {
        return Err(InvalidObjective);
      }
      var rounds := if max.Some? then max.value else cap;
      if rounds < 1 {
        return Err(InvalidMaxRounds);
      }
      if state.failure.Some? {
        return Err(InvalidTransition);
      }
      if state.current.Some? && state.current.value.phase != Completed {
        return Err(AlreadyExists);
      }
      r := Commit(Snapshot(Create, Goal(id, 1, normalized, Active, None, rounds), 0, now, now), Armed);
    }

    method EditGoal(ref: Ref, objective: Option<string>, max: Option<Uint64>, now: Int64) returns (r: Result<View, Rejection>)
      requires Valid()
      modifies this`log, this`state, this`activation
      ensures Valid() && Served(ToEdit(ref, objective, max, now), old(activation), r)
    {
      hide Project, Encode, Trim, Does, OfKind, Refuses;
      Effects(ToEdit(ref, objective, max, now));
      var refused := ExpectCurrent(ref);
      if refused.Some? {
        return Err(refused.value);
      }
      if objective.None? && max.None? {
        return Err(InvalidEdit);
      }
      var goal := state.current.value;
      goal := goal.(revision := Next(goal.revision));
      if objective.Some? {
        if Trim(objective.value) == "" {
          return Err(InvalidObjective);
        }
        goal := goal.(objective := Trim(objective.value));
      }
      if max.Some? {
        if max.value < 1 {
          return Err(InvalidMaxRounds);
        }
        goal := goal.(maxRounds := max.value);
      }
      r := CommitCurrent(Edit, goal, now, activation);
    }

    method PauseGoal(ref: Ref, now: Int64) returns (r: Result<View, Rejection>)
      requires Valid()
      modifies this`log, this`state, this`activation
      ensures Valid() && Served(ToPause(ref, now), Disarmed, r)
    {
      hide Project, Encode, Does, OfKind, Refuses;
      Effects(ToPause(ref, now));
      var refused := ExpectCurrent(ref);
      if refused.Some? {
        return Err(refused.value);
      }
      if state.current.value.phase != Active {
        return Err(InvalidTransition);
      }
      r := CommitCurrent(Pause, WithPhase(state.current.value, Paused), now, Disarmed);
    }

    method ResumeGoal(ref: Ref, now: Int64) returns (r: Result<View, Rejection>)
      requires Valid()
      modifies this`log, this`state, this`activation
      ensures Valid() && Served(ToResume(ref, now), Armed, r)
    {
      hide Project, Encode, Does, OfKind, Refuses;
      Effects(ToResume(ref, now));
      var refused := ExpectCurrent(ref);
      if refused.Some? {
        return Err(refused.value);
      }
      var g := state.current.value;
      if g.phase != Active && g.phase != Paused && g.phase != Blocked {
        return Err(InvalidTransition);
      }
      if g.phase == Active && activation == Armed {
        return Err(InvalidTransition);
      }
      if state.rounds >= g.maxRounds {
        return Err(InvalidTransition);
      }
      r := CommitCurrent(Resume, WithPhase(g, Active), now, Armed);
    }

    method CompleteGoal(ref: Ref, now: Int64) returns (r: Result<View, Rejection>)
      requires Valid()
      modifies this`log, this`state, this`activation
      ensures Valid() && Served(ToComplete(ref, now), Disarmed, r)
    {
      hide Project, Encode, Does, OfKind, Refuses;
      Effects(ToComplete(ref, now));
      var refused := ExpectCurrent(ref);
      if refused.Some? {
        return Err(refused.value);
      }
      if state.current.value.phase == Completed {
        return Err(InvalidTransition);
      }
      r := CommitCurrent(Complete, WithPhase(state.current.value, Completed), now, Disarmed);
    }

    method BlockGoal(ref: Ref, reason: Reason, now: Int64) returns (r: Result<View, Rejection>)
      requires Valid()
      modifies this`log, this`state, this`activation
      ensures Valid() && Served(ToBlock(ref, reason, now), Disarmed, r)
    {
      hide Project, Encode, Trim, Does, OfKind, Refuses;
      Effects(ToBlock(ref, reason, now));
      var refused := ExpectCurrent(ref);
      if refused.Some? {
        return Err(refused.value);
      }
      if state.current.value.phase != Active {
        return Err(InvalidTransition);
      }
      var code, message := Trim(reason.code), Trim(reason.message);
      if code == "" || message == "" {
        return Err(InvalidBlockReason);
      }
      var goal := WithPhase(state.current.value, Blocked);
      goal := goal.(reason := Some(Reason(code, message)));
      r := CommitCurrent(Block, goal, now, Disarmed);
    }

    method ClearGoal(ref: Ref, now: Int64) returns (r: Result<View, Rejection>)
      requires Valid()
      modifies this`log, this`state, this`activation
      ensures Valid() && Served(ToClear(ref, now), Disarmed, r)
    {
      hide Project, Encode, Does, OfKind, Refuses;
      Effects(ToClear(ref, now));
      var refused := ExpectCurrent(ref);
      if refused.Some? {
        return Err(refused.value);
      }
      var g := state.current.value;
      r := Commit(Cleared(Ref(g.id, Next(g.revision)), if now > state.updatedAt then now else state.updatedAt), Disarmed);
    }

    /** Removes continuation authority without touching the durable state. */
    method Disarm() returns (view: Option<View>)
      modifies this`activation
      ensures (!live || state.current.None?) ==> view == None && activation == old(activation)
      ensures live && state.current.Some? ==> activation == Disarmed && view == Some(ViewOf(state, Disarmed))
    {
      if !live || state.current.None? {
        return None;
      }
      activation := Disarmed;
      return Some(ViewOf(state, Disarmed));
    }
  }

  /** A session in which an identifier comes back: the goal is created, cleared and created again, and the
      third event, although proposed and committed, is refused by the projection for good. */
  method IdentifierComesBack(id: string, now: Int64) returns (service: Service)
    requires id != "" && now >= 0
    ensures fresh(service) && service.Valid() && service.live && |service.log| == 3
    ensures Replay(service.log[..2]).failure.None? && Replay(service.log).failure.Some?
    ensures Propose(Replay(service.log[..2]), Disarmed, ToCreate("x", None, id, now), 1).Ok?
    ensures service.log[2] == Changed(Encode(Propose(Replay(service.log[..2]), Disarmed, ToCreate("x", None, id, now), 1).value))
  {
    hide Project, Encode, Propose;
    service := new Service(1);
    var first := ToCreate("x", None, id, now);
    CreationOffered(NOTHING, Disarmed, id, now);
    OperationEffect(NOTHING, Disarmed, first, 1);
    ghost var s1 := Project(NOTHING, Changed(Encode(Propose(NOTHING, Disarmed, first, 1).value)));
    var created := service.CreateGoal("x", None, id, now);
    assert service.state == s1;
    var second := ToClear(Ref(id, 1), now);
    ClearingOffered(s1, Armed, id, now);
    OperationEffect(s1, Armed, second, 1);
    var cleared := service.ClearGoal(Ref(id, 1), now);
    ghost var s2, log2 := service.state, service.log;
    ClearedKeeps(s1, Armed, id, now);
    RepeatedIdentifier(s2, Disarmed, id, now, 1);
    var again := service.CreateGoal("x", None, id, now);
    assert service.log[..2] == log2;
  }

  lemma CreationOffered(s: Projection, a: Activation, id: string, now: Int64)
    requires s.failure.None? && s.current.None?
    ensures Propose(s, a, ToCreate("x", None, id, now), 1).Ok? && Kept(NOTHING)
  {
    NothingKept();
    assert Trim("x") == "x";
  }

  lemma ClearingOffered(s: Projection, a: Activation, id: string, now: Int64)
    requires s.failure.None? && s.current.Some? && s.current.value.id == id && s.current.value.revision == 1
    ensures Propose(s, a, ToClear(Ref(id, 1), now), 1).Ok? && Tolerable(s, ToClear(Ref(id, 1), now))
  {}

  /** Clearing forgets the goal but not that its identifier was used. */
  lemma ClearedKeeps(s: Projection, a: Activation, id: string, now: Int64)
    requires Kept(s) && s.failure.None? && s.current.Some? && s.current.value.id == id && s.current.value.revision == 1
    ensures Propose(s, a, ToClear(Ref(id, 1), now), 1).Ok?
    ensures Project(s, Changed(Encode(Propose(s, a, ToClear(Ref(id, 1), now), 1).value))).seen == s.seen
  {
    hide Encode, Decode;
    ServiceNeverTrips(s, a, ToClear(Ref(id, 1), now), 1);
  }
}
