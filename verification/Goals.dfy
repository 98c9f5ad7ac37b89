/**
  The durable goal domain (plugins/goal/src/goal.cpp): the change codec, the validating projection
  of the event log, and what the service's operations propose to append.
 */
module Goals {
  import opened Basics
  import opened JsonValues

  datatype Phase = Active | Paused | Blocked | Completed

  datatype Reason = Reason(code: string, message: string)

  datatype Goal = Goal(
    id: string,
    revision: Uint64,
    objective: string,
    phase: Phase,
    reason: Option<Reason>,
    maxRounds: Uint64)

  datatype Ref = Ref(id: string, revision: Uint64)

  datatype Operation = Create | Edit | Pause | Resume | Complete | Block

  /** A decoded change: a full snapshot, or the tombstone of a clear. */
  datatype Change =
    | Snapshot(operation: Operation, goal: Goal, rounds: Uint64, createdAt: Int64, updatedAt: Int64)
    | Cleared(ref: Ref, at: Int64)

  /** Why a replay fails. */
  datatype Fault =
    | BadKind | BadVersion | BadOperation | BadRef | BadClearedAt | BadGoal | BadRounds | BadTimes
    | NoCurrent | WrongRevision | Backwards | NotFresh | WrongCounters | WrongPhase | ChangedDefinition
    | BadSource | NotNextRound

  datatype Result<+T, +E> = Ok(value: T) | Err(error: E)

  datatype Projection = Projection(
    current: Option<Goal>,
    rounds: Uint64,
    createdAt: Int64,
    updatedAt: Int64,
    lastRef: Option<Ref>,
    seen: seq<string>,
    failure: Option<Fault>)

  const NOTHING := Projection(None, 0, 0, 0, None, [], None)

  /** Unsigned 64-bit increment. */
  function Next(n: Uint64): Uint64 {
    (n + 1) % TWO_64
  }

  // ---------------------------------------------------------------------------------------------
  // The codec

  function PhaseName(p: Phase): string {
    match p case Active => "active" case Paused => "paused" case Blocked => "blocked" case Completed => "complete"
  }

  function PhaseOf(name: string): Option<Phase> {
    if name == "active" then Some(Active) else if name == "paused" then Some(Paused)
    else if name == "blocked" then Some(Blocked) else if name == "complete" then Some(Completed) else None
  }

  function OperationName(o: Operation): string {
    match o
    case Create => "create" case Edit => "edit" case Pause => "pause"
    case Resume => "resume" case Complete => "complete" case Block => "block"
  }

  function OperationOf(name: string): Option<Operation> {
    if name == "create" then Some(Create) else if name == "edit" then Some(Edit)
    else if name == "pause" then Some(Pause) else if name == "resume" then Some(Resume)
    else if name == "complete" then Some(Complete) else if name == "block" then Some(Block) else None
  }

  function GoalJson(g: Goal): Json {
    var base := map[
      "id" := Text(g.id), "revision" := Unsigned(g.revision), "objective" := Text(g.objective),
      "phase" := Text(PhaseName(g.phase)), "maxGoalRounds" := Unsigned(g.maxRounds)];
    Object(match g.reason
           case None => base
           case Some(r) => base["blockedReason" := Object(map["code" := Text(r.code), "message" := Text(r.message)])])
  }

  function Encode(c: Change): Json {
    match c
    case Snapshot(op, g, rounds, created, updated) =>
      Object(map["kind" := Text("goal/change"), "version" := Signed(1), "operation" := Text(OperationName(op)),
                 "goal" := GoalJson(g), "roundsStarted" := Unsigned(rounds), "createdAt" := Signed(created),
                 "updatedAt" := Signed(updated)])
    case Cleared(r, at) =>
      Object(map["kind" := Text("goal/change"), "version" := Signed(1), "operation" := Text("clear"),
                 "cleared" := Object(map["id" := Text(r.id), "revision" := Unsigned(r.revision)]),
                 "clearedAt" := Signed(at)])
  }

  function DecodeReason(m: map<string, Json>): Result<Reason, Fault> {
    match OptObject(m, "blockedReason")
    case None => Err(BadGoal)
    case Some(r) =>
      match (OptString(r, "code"), OptString(r, "message"))
      case (Some(code), Some(message)) =>
        if code == "" || Trim(message) == "" then Err(BadGoal) else Ok(Reason(code, Trim(message)))
      case _ => Err(BadGoal)
  }

  function DecodeGoal(m: map<string, Json>): Result<Goal, Fault> {
    match (OptString(m, "id"), OptString(m, "objective"), OptUint(m, "revision"), OptUint(m, "maxGoalRounds"), OptString(m, "phase"))
    case (Some(id), Some(objective), Some(revision), Some(max), Some(name)) =>
      if id == "" || Trim(objective) == "" || objective != Trim(objective) || revision < 1 || max < 1 then Err(BadGoal)
      else (match PhaseOf(name)
            case None => Err(BadGoal)
            case Some(Blocked) => (match DecodeReason(m)
                                   case Err(e) => Err(e)
                                   case Ok(r) => Ok(Goal(id, revision, objective, Blocked, Some(r), max)))
            case Some(p) => Ok(Goal(id, revision, objective, p, None, max)))
    case _ => Err(BadGoal)
  }

  function DecodeClear(m: map<string, Json>): Result<Change, Fault> {
    match OptObject(m, "cleared")
    case None => Err(BadRef)
    case Some(r) =>
      match (OptString(r, "id"), OptUint(r, "revision"), OptInt(m, "clearedAt"))
      case (Some(id), Some(revision), at) =>
        if id == "" || revision < 1 then Err(BadRef)
        else if at == None || at.value < 0 then Err(BadClearedAt)
        else Ok(Cleared(Ref(id, revision), at.value))
      case _ => Err(BadRef)
  }

  function DecodeSnapshot(op: Operation, m: map<string, Json>): Result<Change, Fault> {
    match OptObject(m, "goal")
    case None => Err(BadGoal)
    case Some(g) =>
      match DecodeGoal(g)
      case Err(e) => Err(e)
      case Ok(goal) =>
        match (OptUint(m, "roundsStarted"), OptInt(m, "createdAt"), OptInt(m, "updatedAt"))
        case (Some(rounds), Some(created), Some(updated)) =>
          if created < 0 || updated < 0 || updated < created then Err(BadTimes)
          else Ok(Snapshot(op, goal, rounds, created, updated))
        case (None, _, _) => Err(BadRounds)
        case _ => Err(BadTimes)
  }

  function Decode(data: Json): Result<Change, Fault> {
    if !data.Object? then Err(BadKind)
    else
      var m := data.fields;
      if OptString(m, "kind") != Some("goal/change") then Err(BadKind)
      else if OptUint(m, "version") != Some(1) then Err(BadVersion)
      else
        match OptString(m, "operation")
        case None => Err(BadOperation)
        case Some(name) =>
          if name == "clear" then DecodeClear(m)
          else (match OperationOf(name) case None => Err(BadOperation) case Some(op) => DecodeSnapshot(op, m))
  }

  /** What a snapshot must be for its encoding to mean it. */
  predicate Proper(g: Goal) {
    && g.id != "" && g.revision >= 1 && g.maxRounds >= 1
    && g.objective != "" && Trimmed(g.objective)
    && (g.phase == Blocked <==> g.reason.Some?)
    && (g.reason.Some? ==> g.reason.value.code != "" && g.reason.value.message != "" && Trimmed(g.reason.value.message))
  }

  predicate Encodable(c: Change) {
    match c
    case Snapshot(_, g, _, created, updated) => Proper(g) && 0 <= created <= updated
    case Cleared(r, at) => r.id != "" && r.revision >= 1 && at >= 0
  }

  lemma ReasonRoundTrip(g: Goal)
    requires g.reason.Some?
    ensures DecodeReason(GoalJson(g).fields) == Ok(g.reason.value) <==>
      g.reason.value.code != "" && g.reason.value.message != "" && Trimmed(g.reason.value.message)
  {
    TrimNormalises(g.reason.value.message);
  }

  lemma GoalRoundTrip(g: Goal)
    ensures DecodeGoal(GoalJson(g).fields) == Ok(g) <==> Proper(g)
  {
    var m := GoalJson(g).fields;
    TrimNormalises(g.objective);
    assert OptUint(m, "revision") == Some(g.revision) && OptUint(m, "maxGoalRounds") == Some(g.maxRounds);
    if g.reason.Some? {
      ReasonRoundTrip(g);
    } else {
      assert DecodeReason(m) == Err(BadGoal);
    }
  }

  lemma SnapshotRoundTrip(c: Change)
    requires c.Snapshot?
    ensures DecodeSnapshot(c.operation, Encode(c).fields) == Ok(c) <==> Encodable(c)
  {
    hide GoalJson, DecodeGoal, Proper;
    GoalRoundTrip(c.goal);
    GoalField(c);
    var m := Encode(c).fields;
    assert OptUint(m, "roundsStarted") == Some(c.rounds);
    assert OptInt(m, "createdAt") == Some(c.createdAt) && OptInt(m, "updatedAt") == Some(c.updatedAt);
  }

  lemma GoalField(c: Change)
    requires c.Snapshot?
    ensures GoalJson(c.goal).Object? && OptObject(Encode(c).fields, "goal") == Some(GoalJson(c.goal).fields)
  {}

  lemma ClearRoundTrip(c: Change)
    requires c.Cleared?
    ensures DecodeClear(Encode(c).fields) == Ok(c) <==> Encodable(c)
  {
    var m := Encode(c).fields;
    var r := OptObject(m, "cleared").value;
    assert OptString(r, "id") == Some(c.ref.id) && OptUint(r, "revision") == Some(c.ref.revision);
  }

  lemma Envelope(c: Change)
    ensures Decode(Encode(c)) ==
      match c case Snapshot(op, _, _, _, _) => DecodeSnapshot(op, Encode(c).fields) case Cleared(_, _) => DecodeClear(Encode(c).fields)
  {
    hide DecodeSnapshot, DecodeClear, GoalJson;
  }

  /** Decoding undoes encoding exactly for the changes that are well formed. */
  lemma ChangeRoundTrip(c: Change)
    ensures Decode(Encode(c)) == Ok(c) <==> Encodable(c)
  {
    hide DecodeSnapshot, DecodeClear, Encode, Decode, Encodable;
    Envelope(c);
    if c.Snapshot? {
      SnapshotRoundTrip(c);
    } else {
      ClearRoundTrip(c);
    }
  }

  /** An encoding the decoder accepts at all has an identity, a positive revision and a creation time. */
  predicate Identified(c: Change) {
    match c
    case Snapshot(_, g, _, created, _) => g.id != "" && g.revision >= 1 && created >= 0
    case Cleared(r, _) => r.id != "" && r.revision >= 1
  }

  lemma GoalIdentified(g: Goal)
    ensures DecodeGoal(GoalJson(g).fields).Ok? ==> g.id != "" && g.revision >= 1
  {
    hide DecodeReason, Trim;
    var m := GoalJson(g).fields;
    assert OptString(m, "id") == Some(g.id) && OptUint(m, "revision") == Some(g.revision);
  }

  /** Decoding an encoded snapshot never changes which operation on which goal it is. */
  lemma SnapshotIdentity(c: Change)
    requires c.Snapshot?
    ensures DecodeSnapshot(c.operation, Encode(c).fields).Ok? ==>
      var d := DecodeSnapshot(c.operation, Encode(c).fields).value;
      d.Snapshot? && d.operation == c.operation && d.goal.id == c.goal.id
  {
    hide DecodeGoal, GoalJson;
    GoalField(c);
    GoalIdentity(c.goal);
  }

  lemma GoalIdentity(g: Goal)
    ensures DecodeGoal(GoalJson(g).fields).Ok? ==> DecodeGoal(GoalJson(g).fields).value.id == g.id
  {
    hide DecodeReason, Trim;
    assert OptString(GoalJson(g).fields, "id") == Some(g.id);
  }

  lemma AcceptedIsIdentified(c: Change)
    ensures Decode(Encode(c)).Ok? ==> Identified(c)
  {
    hide Decode, GoalJson, DecodeGoal;
    Envelope(c);
    if c.Snapshot? {
      GoalIdentified(c.goal);
      GoalField(c);
      assert OptInt(Encode(c).fields, "createdAt") == Some(c.createdAt);
    } else {
      var r := OptObject(Encode(c).fields, "cleared").value;
      assert OptString(r, "id") == Some(c.ref.id) && OptUint(r, "revision") == Some(c.ref.revision);
    }
  }

  lemma ReasonReparsed(m: map<string, Json>)
    ensures DecodeReason(ReparsedFields(m)) == DecodeReason(m)
  {
    AccessorsTolerate(m, "blockedReason");
    if OptObject(m, "blockedReason").Some? {
      var r := OptObject(m, "blockedReason").value;
      AccessorsTolerate(r, "code");
      AccessorsTolerate(r, "message");
    }
  }

  lemma GoalReparsed(m: map<string, Json>)
    ensures DecodeGoal(ReparsedFields(m)) == DecodeGoal(m)
  {
    AccessorsTolerate(m, "id");
    AccessorsTolerate(m, "objective");
    AccessorsTolerate(m, "revision");
    AccessorsTolerate(m, "maxGoalRounds");
    AccessorsTolerate(m, "phase");
    ReasonReparsed(m);
  }

  /** A change read back from text decodes to the same thing, whatever it is. */
  lemma ChangeReparsed(data: Json)
    ensures Decode(Reparsed(data)) == Decode(data)
  {
    hide DecodeSnapshot, DecodeClear, OptString, OptUint;
    if data.Object? {
      var m := data.fields;
      ReparsedObject(m);
      AccessorsTolerate(m, "kind");
      AccessorsTolerate(m, "version");
      AccessorsTolerate(m, "operation");
      ClearReparsed(m);
      forall op ensures DecodeSnapshot(op, ReparsedFields(m)) == DecodeSnapshot(op, m) {
        SnapshotReparsed(op, m);
      }
    }
  }

  lemma ClearReparsed(m: map<string, Json>)
    ensures DecodeClear(ReparsedFields(m)) == DecodeClear(m)
  {
    AccessorsTolerate(m, "cleared");
    AccessorsTolerate(m, "clearedAt");
    if OptObject(m, "cleared").Some? {
      var r := OptObject(m, "cleared").value;
      AccessorsTolerate(r, "id");
      AccessorsTolerate(r, "revision");
    }
  }

  lemma SnapshotReparsed(op: Operation, m: map<string, Json>)
    ensures DecodeSnapshot(op, ReparsedFields(m)) == DecodeSnapshot(op, m)
  {
    hide DecodeGoal, OptUint, OptInt, OptObject;
    AccessorsTolerate(m, "goal");
    AccessorsTolerate(m, "roundsStarted");
    AccessorsTolerate(m, "createdAt");
    AccessorsTolerate(m, "updatedAt");
    if OptObject(m, "goal").Some? {
      GoalReparsed(OptObject(m, "goal").value);
    }
  }

  lemma DecodedReason(m: map<string, Json>)
    ensures DecodeReason(m).Ok? ==>
      var r := DecodeReason(m).value; r.code != "" && r.message != "" && Trimmed(r.message)
  {
    if DecodeReason(m).Ok? {
      TrimNormalises(OptString(OptObject(m, "blockedReason").value, "message").value);
    }
  }

  lemma DecodedGoal(m: map<string, Json>)
    ensures DecodeGoal(m).Ok? ==> Proper(DecodeGoal(m).value)
  {
    hide OptUint, DecodeReason;
    DecodedReason(m);
    if DecodeGoal(m).Ok? {
      TrimNormalises(OptString(m, "objective").value);
    }
  }

  /** The decoder lets nothing through that could not have been encoded. */
  lemma DecodedIsEncodable(data: Json)
    ensures Decode(data).Ok? ==> Encodable(Decode(data).value)
  {
    hide DecodeGoal, OptUint, OptInt, Proper;
    if Decode(data).Ok? && Decode(data).value.Snapshot? {
      DecodedGoal(OptObject(data.fields, "goal").value);
    }
  }

  /** What the fields of a change spell. */
  ghost predicate Spells(data: Json, c: Change) {
    && data.Object? && OptString(data.fields, "kind") == Some("goal/change") && OptUint(data.fields, "version") == Some(1)
    && match c
       case Cleared(r, at) =>
         && OptString(data.fields, "operation") == Some("clear") && OptInt(data.fields, "clearedAt") == Some(at)
         && OptObject(data.fields, "cleared").Some?
         && OptString(OptObject(data.fields, "cleared").value, "id") == Some(r.id)
         && OptUint(OptObject(data.fields, "cleared").value, "revision") == Some(r.revision)
       case Snapshot(op, g, rounds, created, updated) =>
         && OptString(data.fields, "operation") == Some(["create", "edit", "pause", "resume", "complete", "block"][Place(op)])
         && OptUint(data.fields, "roundsStarted") == Some(rounds)
         && OptInt(data.fields, "createdAt") == Some(created) && OptInt(data.fields, "updatedAt") == Some(updated)
         && OptObject(data.fields, "goal").Some? && SpellsGoal(OptObject(data.fields, "goal").value, g)
  }

  /** The operations in the order the source declares them. */
  function Place(op: Operation): (n: nat)
    ensures n < 6 && (n == 0 <==> op == Create) && (n == 1 <==> op == Edit) && (n == 2 <==> op == Pause)
    ensures (n == 3 <==> op == Resume) && (n == 4 <==> op == Complete)
  {
    match op case Create => 0 case Edit => 1 case Pause => 2 case Resume => 3 case Complete => 4 case Block => 5
  }

  ghost predicate SpellsGoal(m: map<string, Json>, g: Goal) {
    && OptString(m, "id") == Some(g.id) && OptUint(m, "revision") == Some(g.revision)
    && OptString(m, "objective") == Some(g.objective) && OptUint(m, "maxGoalRounds") == Some(g.maxRounds)
    && (match g.phase
        case Active => OptString(m, "phase") == Some("active")
        case Paused => OptString(m, "phase") == Some("paused")
        case Blocked => OptString(m, "phase") == Some("blocked")
        case Completed => OptString(m, "phase") == Some("complete"))
    && (g.reason.Some? ==> OptObject(m, "blockedReason").Some? && SpellsReason(OptObject(m, "blockedReason").value, g.reason.value))
  }

  ghost predicate SpellsReason(m: map<string, Json>, r: Reason) {
    && OptString(m, "code") == Some(r.code)
    && OptString(m, "message").Some? && Trim(OptString(m, "message").value) == r.message
  }

  lemma ReasonSpelled(m: map<string, Json>, r: Reason)
    ensures DecodeReason(m) == Ok(r) <==>
      && OptObject(m, "blockedReason").Some? && SpellsReason(OptObject(m, "blockedReason").value, r)
      && r.code != "" && r.message != "" && Trimmed(r.message)
  {
    if OptObject(m, "blockedReason").Some? && OptString(OptObject(m, "blockedReason").value, "message").Some? {
      TrimNormalises(OptString(OptObject(m, "blockedReason").value, "message").value);
    }
  }

  lemma GoalSpelled(m: map<string, Json>, g: Goal)
    ensures DecodeGoal(m) == Ok(g) <==> Proper(g) && SpellsGoal(m, g)
  {
    hide DecodeReason, Trim, SpellsReason, OptUint, OptString, OptObject;
    if g.reason.Some? {
      ReasonSpelled(m, g.reason.value);
    }
    if OptString(m, "objective").Some? {
      TrimNormalises(OptString(m, "objective").value);
    }
    if DecodeReason(m).Ok? {
      ReasonSpelled(m, DecodeReason(m).value);
    }
  }

  lemma SnapshotSpelled(data: Json, c: Change)
    requires data.Object? && c.Snapshot?
    ensures DecodeSnapshot(c.operation, data.fields) == Ok(c) <==>
      && Encodable(c)
      && OptUint(data.fields, "roundsStarted") == Some(c.rounds)
      && OptInt(data.fields, "createdAt") == Some(c.createdAt) && OptInt(data.fields, "updatedAt") == Some(c.updatedAt)
      && OptObject(data.fields, "goal").Some? && SpellsGoal(OptObject(data.fields, "goal").value, c.goal)
  {
    hide DecodeGoal, SpellsGoal, Proper, OptUint, OptInt, OptObject;
    if OptObject(data.fields, "goal").Some? {
      GoalSpelled(OptObject(data.fields, "goal").value, c.goal);
    }
  }

  lemma DecodedOperation(op: Operation, m: map<string, Json>)
    ensures DecodeSnapshot(op, m).Ok? ==> DecodeSnapshot(op, m).value.Snapshot? && DecodeSnapshot(op, m).value.operation == op
  {
    hide DecodeGoal, OptUint, OptInt;
  }

  /** The decoder accepts exactly the well-formed changes the fields spell: it reads each field under its
      own name, takes no other version, and trims nothing but the message of a block. */
  lemma DecodesWhatIsSpelled(data: Json, c: Change)
    ensures Decode(data) == Ok(c) <==> Encodable(c) && Spells(data, c)
  {
    hide DecodeSnapshot, SpellsGoal, Proper, OptUint, OptInt, OptObject, OptString;
    if data.Object? {
      if c.Snapshot? {
        SnapshotSpelled(data, c);
      }
      forall op ensures DecodeSnapshot(op, data.fields).Ok? ==>
        DecodeSnapshot(op, data.fields).value.Snapshot? && DecodeSnapshot(op, data.fields).value.operation == op
      {
        DecodedOperation(op, data.fields);
      }
    }
  }

  // ---------------------------------------------------------------------------------------------
  // The projection

  datatype Event = Changed(data: Json) | UserMessage(data: Json) | Unrelated

  predicate SameDefinition(a: Goal, b: Goal) {
    a.objective == b.objective && a.maxRounds == b.maxRounds
  }

  function Cleaned(s: Projection, r: Ref, at: Int64): Result<Projection, Fault> {
    if s.current.None? then Err(NoCurrent)
    else if r.id != s.current.value.id || r.revision != Next(s.current.value.revision) then Err(WrongRevision)
    else if at < s.updatedAt then Err(Backwards)
    else Ok(s.(current := None, rounds := 0, createdAt := 0, updatedAt := 0, lastRef := Some(r)))
  }

  function PhaseFault(op: Operation, cur: Goal, g: Goal, rounds: Uint64): Option<Fault> {
    match op
    case Edit => if g.phase != cur.phase then Some(WrongPhase) else None
    case Pause =>
      if !SameDefinition(cur, g) then Some(ChangedDefinition)
      else if cur.phase != Active || g.phase != Paused then Some(WrongPhase) else None
    case Resume =>
      if !SameDefinition(cur, g) then Some(ChangedDefinition)
      else if cur.phase == Completed || g.phase != Active || rounds >= g.maxRounds then Some(WrongPhase) else None
    case Complete =>
      if !SameDefinition(cur, g) then Some(ChangedDefinition)
      else if cur.phase == Completed || g.phase != Completed then Some(WrongPhase) else None
    case Block =>
      if !SameDefinition(cur, g) then Some(ChangedDefinition)
      else if cur.phase != Active || g.phase != Blocked then Some(WrongPhase) else None
    case Create => Some(BadOperation)
  }

  function ChangeFault(s: Projection, op: Operation, g: Goal, rounds: Uint64, created: Int64, updated: Int64): Option<Fault> {
    if op == Create then
      if g.revision != 1 || g.phase != Active || rounds != 0 || g.id in s.seen || (s.current.Some? && s.current.value.phase != Completed)
      then Some(NotFresh) else None
    else if s.current.None? then Some(NoCurrent)
    else
      var cur := s.current.value;
      if g.id != cur.id || g.revision != Next(cur.revision) then Some(WrongRevision)
      else if created != s.createdAt || updated < s.updatedAt || rounds != s.rounds then Some(WrongCounters)
      else PhaseFault(op, cur, g, s.rounds)
  }

  /** One decoded change, applied or refused. */
  function ChangedBy(s: Projection, c: Change): Result<Projection, Fault> {
    match c
    case Cleared(r, at) => Cleaned(s, r, at)
    case Snapshot(op, g, rounds, created, updated) =>
      match ChangeFault(s, op, g, rounds, created, updated)
      case Some(f) => Err(f)
      case None => Ok(s.(current := Some(g), rounds := rounds, createdAt := created, updatedAt := updated,
                         lastRef := Some(Ref(g.id, g.revision)), seen := if op == Create then s.seen + [g.id] else s.seen))
  }

  /** The goal source of a user message, when it has one. */
  function GoalSource(data: Json): Option<map<string, Json>> {
    if !data.Object? then None
    else match OptObject(data.fields, "source")
         case None => None
         case Some(src) => if OptString(src, "kind") == Some("goal") then Some(src) else None
  }

  /** A goal message is an object with a source object of the goal kind, and that is its source. */
  lemma GoalMessage(data: Json, m: map<string, Json>)
    ensures GoalSource(data) == Some(m) <==>
      && data.Object? && "source" in data.fields && data.fields["source"] == Object(m)
      && "kind" in m && m["kind"] == Text("goal")
  {}

  /** One goal-sourced user message: the next round, or refused. */
  function RoundBy(s: Projection, src: map<string, Json>): Result<Projection, Fault> {
    match (OptString(src, "goalId"), OptUint(src, "revision"), OptUint(src, "round"))
    case (Some(id), Some(revision), Some(round)) =>
      if id == "" || round < 1 then Err(BadSource)
      else if s.current.None? || s.current.value.phase != Active || id != s.current.value.id
              || revision != s.current.value.revision || round != Next(s.rounds) || round > s.current.value.maxRounds
      then Err(NotNextRound)
      else Ok(s.(rounds := round))
    case _ => Err(BadSource)
  }

  function Settle(s: Projection, r: Result<Projection, Fault>): Projection {
    match r case Ok(t) => t case Err(f) => s.(failure := Some(f))
  }

  /** One event of the session log; a failed projection stays as it is. */
  function Project(s: Projection, e: Event): Projection {
    if s.failure.Some? then s
    else
      match e
      case Changed(data) => (match Decode(data) case Err(f) => s.(failure := Some(f)) case Ok(c) => Settle(s, ChangedBy(s, c)))
      case UserMessage(data) => (match GoalSource(data) case None => s case Some(src) => Settle(s, RoundBy(s, src)))
      case Unrelated => s
  }

  ghost function Replay(log: seq<Event>): Projection {
    if log == [] then NOTHING else Project(Replay(log[..|log| - 1]), log[|log| - 1])
  }

  // ---------------------------------------------------------------------------------------------
  // What every log keeps

  predicate Kept(s: Projection) {
    s.current.Some? ==>
      && Proper(s.current.value) && s.current.value.id in s.seen && 0 <= s.createdAt <= s.updatedAt
  }

  lemma ProjectKeeps(s: Projection, e: Event)
    requires Kept(s)
    ensures Kept(Project(s, e))
  {
    hide Decode, Proper, RoundBy, PhaseFault;
    if e.Changed? {
      DecodedIsEncodable(e.data);
    } else if e.UserMessage? && GoalSource(e.data).Some? {
      RoundKeeps(s, GoalSource(e.data).value);
    }
  }

  lemma RoundKeeps(s: Projection, src: map<string, Json>)
    ensures RoundBy(s, src).Ok? ==> RoundBy(s, src).value == s.(rounds := RoundBy(s, src).value.rounds)
  {}

  lemma {:induction false} ReplayKeeps(log: seq<Event>)
    ensures Kept(Replay(log))
  {
    hide Project, Kept;
    if log == [] {
      NothingKept();
    } else {
      ReplayKeeps(log[..|log| - 1]);
      ProjectKeeps(Replay(log[..|log| - 1]), log[|log| - 1]);
    }
  }

  lemma NothingKept()
    ensures Kept(NOTHING)
  {}

  function EventReparsed(e: Event): Event {
    match e case Changed(d) => Changed(Reparsed(d)) case UserMessage(d) => UserMessage(Reparsed(d)) case Unrelated => e
  }

  lemma SourceReparsed(data: Json)
    ensures match GoalSource(data) case None => GoalSource(Reparsed(data)) == None
            case Some(src) => GoalSource(Reparsed(data)) == Some(ReparsedFields(src))
  {
    if data.Object? {
      ReparsedObject(data.fields);
      AccessorsTolerate(data.fields, "source");
      if OptObject(data.fields, "source").Some? {
        AccessorsTolerate(OptObject(data.fields, "source").value, "kind");
      }
    }
  }

  lemma RoundReparsed(s: Projection, src: map<string, Json>)
    ensures RoundBy(s, ReparsedFields(src)) == RoundBy(s, src)
  {
    AccessorsTolerate(src, "goalId");
    AccessorsTolerate(src, "revision");
    AccessorsTolerate(src, "round");
  }

  lemma ProjectReparsed(s: Projection, e: Event)
    ensures Project(s, EventReparsed(e)) == Project(s, e)
  {
    hide Decode, RoundBy, GoalSource, ChangedBy;
    if e.Changed? {
      ChangeReparsed(e.data);
    } else if e.UserMessage? {
      SourceReparsed(e.data);
      if GoalSource(e.data).Some? {
        RoundReparsed(s, GoalSource(e.data).value);
      }
    }
  }

  ghost function LogReparsed(log: seq<Event>): seq<Event> {
    seq(|log|, i requires 0 <= i < |log| => EventReparsed(log[i]))
  }

  /** Restoring a session from its written log yields the state the live process had. */
  lemma {:induction false} ReplayReparsed(log: seq<Event>)
    ensures Replay(LogReparsed(log)) == Replay(log)
  {
    hide Project, EventReparsed;
    if log != [] {
      var rest := log[..|log| - 1];
      ReplayReparsed(rest);
      assert LogReparsed(log)[..|log| - 1] == LogReparsed(rest);
      ProjectReparsed(Replay(rest), log[|log| - 1]);
    }
  }

  // ---------------------------------------------------------------------------------------------
  // Which events a log may hold

  /** From which phases to which an operation leads, and what it must leave alone. */
  ghost predicate Leads(op: Operation, cur: Goal, g: Goal, rounds: Uint64) {
    && op != Create
    && (op == Edit ==> g.phase == cur.phase)
    && (op != Edit ==> g.objective == cur.objective && g.maxRounds == cur.maxRounds)
    && (op == Pause ==> cur.phase == Active && g.phase == Paused)
    && (op == Resume ==> cur.phase in {Active, Paused, Blocked} && g.phase == Active && rounds < g.maxRounds)
    && (op == Complete ==> cur.phase in {Active, Paused, Blocked} && g.phase == Completed)
    && (op == Block ==> cur.phase == Active && g.phase == Blocked)
  }

  /** A creation is fresh; anything else is the next revision of the current goal and keeps its counters. */
  ghost predicate Admissible(s: Projection, c: Change) {
    match c
    case Cleared(r, at) =>
      && s.current.Some? && r.id == s.current.value.id && r.revision == Next(s.current.value.revision) && s.updatedAt <= at
    case Snapshot(Create, g, rounds, _, _) =>
      && g.revision == 1 && g.phase == Active && rounds == 0 && g.id !in s.seen
      && (s.current.Some? ==> s.current.value.phase == Completed)
    case Snapshot(op, g, rounds, created, updated) =>
      && s.current.Some? && g.id == s.current.value.id && g.revision == Next(s.current.value.revision)
      && rounds == s.rounds && created == s.createdAt && s.updatedAt <= updated
      && Leads(op, s.current.value, g, rounds)
  }

  /** What an admitted change makes of the projection: the snapshot is current, or nothing is. */
  ghost predicate Becomes(s: Projection, c: Change, t: Projection) {
    && t.failure == s.failure
    && t.current == (if c.Snapshot? then Some(c.goal) else None)
    && t.rounds == (if c.Snapshot? then c.rounds else 0)
    && t.createdAt == (if c.Snapshot? then c.createdAt else 0) && t.updatedAt == (if c.Snapshot? then c.updatedAt else 0)
    && t.lastRef == Some(if c.Snapshot? then Ref(c.goal.id, c.goal.revision) else c.ref)
    && t.seen == s.seen + (if c.Snapshot? && c.operation == Create then [c.goal.id] else [])
  }

  /** A change is accepted exactly when it is admissible. */
  lemma AcceptedExactly(s: Projection, c: Change)
    ensures ChangedBy(s, c).Ok? <==> Admissible(s, c)
    ensures ChangedBy(s, c).Ok? ==> Becomes(s, c, ChangedBy(s, c).value)
  {}

  /** The round of a goal message that follows on the rounds of the active goal, within its budget. */
  ghost predicate NextRound(s: Projection, src: map<string, Json>, round: Uint64) {
    && s.current.Some? && s.current.value.phase == Active && s.current.value.id != ""
    && OptString(src, "goalId") == Some(s.current.value.id) && OptUint(src, "revision") == Some(s.current.value.revision)
    && OptUint(src, "round") == Some(round) && round == s.rounds + 1 && round <= s.current.value.maxRounds
  }

  /** A goal message is accepted exactly as the next round, and moves nothing but the rounds. */
  lemma RoundExactly(s: Projection, src: map<string, Json>, t: Projection)
    ensures RoundBy(s, src) == Ok(t) <==> NextRound(s, src, t.rounds) && t == s.(rounds := t.rounds)
  {}

  /** An event that may follow on a projection. */
  ghost predicate Fits(s: Projection, e: Event) {
    match e
    case Changed(data) => exists c :: Encodable(c) && Spells(data, c) && Admissible(s, c)
    case UserMessage(data) => GoalSource(data).Some? ==> exists round :: NextRound(s, GoalSource(data).value, round)
    case Unrelated => true
  }

  lemma FitsExactly(s: Projection, e: Event)
    ensures Project(s, e).failure.None? <==> s.failure.None? && Fits(s, e)
  {
    hide Decode, Encodable, Spells, Admissible, ChangedBy, RoundBy, NextRound, GoalSource, Becomes;
    match e
    case Changed(data) => ChangeFits(s, data);
    case UserMessage(data) =>
      if GoalSource(data).Some? {
        RoundFits(s, GoalSource(data).value);
      }
    case Unrelated =>
  }

  lemma ChangeFits(s: Projection, data: Json)
    ensures Fits(s, Changed(data)) <==> Decode(data).Ok? && ChangedBy(s, Decode(data).value).Ok?
    ensures Fits(s, Changed(data)) ==> ChangedBy(s, Decode(data).value).value.failure == s.failure
  {
    hide Decode, Encodable, Spells, Admissible, ChangedBy;
    if Decode(data).Ok? {
      DecodesWhatIsSpelled(data, Decode(data).value);
      AcceptedExactly(s, Decode(data).value);
    }
    if c :| Encodable(c) && Spells(data, c) && Admissible(s, c) {
      DecodesWhatIsSpelled(data, c);
    }
  }

  lemma RoundFits(s: Projection, src: map<string, Json>)
    ensures (exists round :: NextRound(s, src, round)) <==> RoundBy(s, src).Ok?
    ensures RoundBy(s, src).Ok? ==> RoundBy(s, src).value.failure == s.failure
  {
    hide RoundBy, NextRound;
    if RoundBy(s, src).Ok? {
      RoundExactly(s, src, RoundBy(s, src).value);
    }
    if round :| NextRound(s, src, round) {
      RoundExactly(s, src, s.(rounds := round));
    }
  }

  /** A log projects to its end without a failure exactly when each of its events fits the ones before it. */
  lemma {:induction false} LogFits(log: seq<Event>)
    ensures Replay(log).failure.None? <==> forall i | 0 <= i < |log| :: Fits(Replay(log[..i]), log[i])
  {
    hide Project, Fits;
    if log != [] {
      var n := |log| - 1;
      LogFits(log[..n]);
      FitsExactly(Replay(log[..n]), log[n]);
      forall i | 0 <= i < n ensures log[..n][..i] == log[..i] && log[..n][i] == log[i] {}
    }
  }

  // ---------------------------------------------------------------------------------------------
  // A revision names one snapshot

  /** What can have become of goal `g` since it was current. */
  ghost predicate Since(g: Goal, s: Projection) {
    && g.id in s.seen
    && (s.current.Some? && s.current.value.id == g.id ==>
          s.current.value.revision >= g.revision && (s.current.value.revision == g.revision ==> s.current.value == g))
  }

  lemma ProjectSince(g: Goal, s: Projection, e: Event)
    requires Kept(s) && Since(g, s)
    ensures Since(g, Project(s, e))
  {
    hide Decode, RoundBy;
    if e.Changed? && s.failure.None? && Decode(e.data).Ok? {
      DecodedIsEncodable(e.data);
    } else if e.UserMessage? && GoalSource(e.data).Some? {
      RoundKeeps(s, GoalSource(e.data).value);
    }
  }

  /** Along a log a goal's identity and revision determine its snapshot: every edit moves the revision. */
  lemma {:induction false} RevisionNamesSnapshot(before: seq<Event>, after: seq<Event>)
    requires before <= after && Replay(before).current.Some?
    ensures Since(Replay(before).current.value, Replay(after))
    decreases |after|
  {
    hide Project, Kept, Since;
    ReplayKeeps(after);
    if |after| == |before| {
      assert after == before;
      SinceItself(Replay(before));
    } else {
      var rest := after[..|after| - 1];
      RevisionNamesSnapshot(before, rest);
      ReplayKeeps(rest);
      ProjectSince(Replay(before).current.value, Replay(rest), after[|after| - 1]);
    }
  }

  lemma SinceItself(s: Projection)
    requires Kept(s) && s.current.Some?
    ensures Since(s.current.value, s)
  {}

  /** Completion is final: along a log, a goal that was complete is complete for as long as it is current. */
  lemma {:induction false} CompletedIsFinal(before: seq<Event>, after: seq<Event>)
    requires before <= after && Replay(before).current.Some? && Replay(before).current.value.phase == Completed
    ensures var s := Replay(after);
      s.current.Some? && s.current.value.id == Replay(before).current.value.id ==> s.current.value.phase == Completed
    decreases |after|
  {
    hide Project, Kept, Since;
    if |after| == |before| {
      assert after == before;
    } else {
      var rest := after[..|after| - 1];
      CompletedIsFinal(before, rest);
      RevisionNamesSnapshot(before, rest);
      StaysCompleted(Replay(before).current.value, Replay(rest), after[|after| - 1]);
    }
  }

  lemma StaysCompleted(g: Goal, s: Projection, e: Event)
    requires Since(g, s)
    requires s.current.Some? && s.current.value.id == g.id ==> s.current.value.phase == Completed
    ensures var t := Project(s, e); t.current.Some? && t.current.value.id == g.id ==> t.current.value.phase == Completed
  {
    hide Decode, RoundBy;
    if e.UserMessage? && GoalSource(e.data).Some? {
      RoundKeeps(s, GoalSource(e.data).value);
    }
  }
}
