/**
  The goal round driver of one session (plugins/goal-round-driver/src/goal_round_driver.cpp): one
  scheduling loop at a time, and the pre-step fence.
 */
module RoundDriver {
  import opened Basics
  import opened JsonValues
  import opened Goals
  import opened GoalService

  /** The prompt of a round is opaque here; its source is what the fence and the projection read. */
  function RoundMessage(id: string, prompt: string, src: map<string, Json>): Json {
    Object(map["role" := Text("user"), "id" := Text(id), "text" := Text(prompt), "source" := Object(src)])
  }

  class Driver {
    const goals: Service
    var requested: bool
    var running: bool
    var competing: bool
    var stopping: bool
    /** Scheduling loops alive. */
    ghost var loops: nat

    /** At most one loop is alive, and a request never waits without one. */
    ghost predicate Serialized()
      reads this
    {
      && loops == (if running then 1 else 0)
      && (requested && !stopping ==> running)
    }

    constructor (goals: Service)
      ensures Serialized() && this.goals == goals
    {
      this.goals := goals;
      requested, running, competing, stopping, loops := false, false, false, false, 0;
    }

    /** A trigger: remembers the request and starts a loop unless one is alive. */
    method RequestDrive()
      requires Serialized()
      modifies this`requested, this`running, this`loops
      ensures Serialized()
      ensures !stopping ==> requested && running
      ensures stopping ==> requested == old(requested) && running == old(running)
    {
      if stopping {
        return;
      }
      requested := true;
      if running {
        return;
      }
      running := true;
      loops := loops + 1;
    }

    /** One turn of the loop: it takes the request and drives, or it ends; requests that arrive while
        it drives are seen by its next turn. */
    method LoopTurn(idle: bool, accepts: bool, id: string, prompt: string, now: Int64) returns (more: bool, sent: Option<Json>)
      requires Serialized() && running && goals.Valid()
      modifies this`requested, this`running, this`loops, goals
      ensures Serialized() && goals.Valid()
      ensures more <==> old(requested) && !stopping
      ensures running == more && (more ==> !requested)
      ensures if more then Drove(idle, accepts, id, prompt, sent) else sent == None && Untouched()
    {
      sent := None;
      if !requested || stopping {
        running := false;
        loops := loops - 1;
        return false, None;
      }
      requested := false;
      sent := Drive(idle, accepts, id, prompt, now);
      return true, sent;
    }

    twostate predicate Untouched()
      reads goals
    {
      && goals.live == old(goals.live) && goals.log == old(goals.log)
      && goals.state == old(goals.state) && goals.activation == old(goals.activation)
    }

    /** What one scheduling pass did: the next round of a due goal is sent, or the goal disarmed when it
        is not accepted; a goal whose budget is spent is blocked; and nothing else. */
    twostate predicate Drove(idle: bool, accepts: bool, id: string, prompt: string, new sent: Option<Json>)
      reads this, goals
    {
      var s, free := old(goals.state), !stopping && !competing && idle && old(goals.live);
      var due := free && Due(s, old(goals.activation));
      && (sent.Some? <==> due && s.rounds < s.current.value.maxRounds && accepts)
      && (sent.Some? ==> Untouched() && IsRound(sent.value, id, prompt, s))
      && (due && s.rounds < s.current.value.maxRounds && !accepts ==>
            goals.log == old(goals.log) && goals.state == s && goals.activation == Disarmed)
      && (due && s.rounds >= s.current.value.maxRounds ==>
            && old(goals.log) < goals.log && |goals.log| == |old(goals.log)| + 1
            && goals.activation == Disarmed && BlockedFrom(s, goals.state))
      && (!due ==> Untouched())
    }

    /** One scheduling pass: blocks a goal whose budget is spent, or sends its next round. A goal whose
        revisions are used up cannot be blocked: the event of the attempt makes the projection fail. */
    method Drive(idle: bool, accepts: bool, id: string, prompt: string, now: Int64) returns (sent: Option<Json>)
      requires goals.Valid()
      modifies goals
      ensures goals.Valid() && Drove(idle, accepts, id, prompt, sent)
      ensures sent.Some? ==> GoalSource(sent.value) == Scheduled(old(goals.state), old(goals.activation))
    {
      if stopping || competing || !idle || !goals.live || goals.state.failure.Some? {
        return None;
      }
      if goals.state.current.None? || goals.state.current.value.phase != Active || goals.activation != Armed {
        return None;
      }
      var g := goals.state.current.value;
      if goals.state.rounds >= g.maxRounds {
        BlockOnLimit(now);
        return None;
      }
      var round := Next(goals.state.rounds);
      var src := map["kind" := Text("goal"), "goalId" := Text(g.id), "revision" := Unsigned(g.revision), "round" := Unsigned(round)];
      var message := RoundMessage(id, prompt, src);
      if accepts {
        SourceOf(id, prompt, src);
        RoundReads(id, prompt, g, round);
        return Some(message);
      }
      var view := goals.Disarm();
      return None;
    }

    method BlockOnLimit(now: Int64)
      requires goals.Valid() && goals.live && goals.state.failure.None?
      requires goals.state.current.Some? && goals.state.current.value.phase == Active
      modifies goals
      ensures goals.Valid() && goals.live && |goals.log| == |old(goals.log)| + 1 && old(goals.log) <= goals.log
      ensures BlockedFrom(old(goals.state), goals.state) && goals.activation == Disarmed
    {
      hide Project, Encode, Proper, Propose;
      ReplayKeeps(goals.log);
      var g := goals.state.current.value;
      var reason := Reason("round-limit", "Goal reached its configured limit.");
      TrimNormalises(reason.code);
      TrimNormalises(reason.message);
      ghost var q := ToBlock(Ref(g.id, g.revision), reason, now);
      BlockBlocks(goals.state, goals.activation, q, goals.cap);
      var r := goals.BlockGoal(Ref(g.id, g.revision), reason, now);
    }

    /** The pre-step fence: rejects a batch exactly when one of its goal messages is not the exact
        next round of the armed goal. */
    method Fence(batch: seq<Json>) returns (reject: bool)
      ensures reject <==> exists i :: 0 <= i < |batch| && Unfit(goals.live, goals.state, goals.activation, batch[i])
    {
      hide GoalSource;
      for i := 0 to |batch|
        invariant forall j | 0 <= j < i :: !Unfit(goals.live, goals.state, goals.activation, batch[j])
      {
        var src := GoalSource(batch[i]);
        if src.Some? {
          if !goals.live || !Passes(goals.state, goals.activation, src.value) {
            return true;
          }
        }
      }
      return false;
    }

    /** A turn that ended in an error or was cut short drops the automatic authority. */
    method TurnEnded(reason: string)
      modifies goals
      ensures goals.log == old(goals.log) && goals.state == old(goals.state) && goals.live == old(goals.live)
      ensures goals.activation ==
        if reason in {"error", "max_tokens"} && goals.live && goals.state.current.Some? then Disarmed else old(goals.activation)
    {
      if reason != "error" && reason != "max_tokens" {
        return;
      }
      var view := goals.Disarm();
    }

    /** The agent is idle again: competing input is over, and the next round is considered. */
    method AgentIdle()
      requires Serialized()
      modifies this`competing, this`requested, this`running, this`loops
      ensures Serialized() && !competing && (!stopping ==> requested && running)
    {
      competing := false;
      RequestDrive();
    }

    /** Next-turn input that is not a goal round competes with the next automatic round. */
    method InboxInserted(message: Json, nextTurn: bool)
      modifies this`competing
      ensures competing == (old(competing) || (GoalSource(message).None? && nextTurn))
    {
      if GoalSource(message).Some? {
        return;
      }
      if nextTurn {
        competing := true;
      }
    }

    /** Teardown: no more rounds, and no automatic authority left. */
    method Stop()
      requires Serialized()
      modifies this`stopping, goals
      ensures Serialized() && stopping
      ensures goals.log == old(goals.log) && goals.state == old(goals.state)
      ensures goals.activation == if goals.live && goals.state.current.Some? then Disarmed else old(goals.activation)
    {
      stopping := true;
      var view := goals.Disarm();
    }
  }

  /** A healthy projection with an active goal that is armed. */
  predicate Due(s: Projection, a: Activation) {
    s.failure.None? && s.current.Some? && s.current.value.phase == Active && a == Armed
  }

  /** A user message for the round after the ones that were started, at the goal's revision. */
  predicate IsRound(message: Json, id: string, prompt: string, s: Projection)
    requires s.current.Some?
  {
    && message.Object? && OptString(message.fields, "role") == Some("user")
    && OptString(message.fields, "id") == Some(id) && OptString(message.fields, "text") == Some(prompt)
    && GoalSource(message).Some?
    && var src := GoalSource(message).value;
       && OptString(src, "goalId") == Some(s.current.value.id) && OptUint(src, "revision") == Some(s.current.value.revision)
       && OptUint(src, "round") == Some(if s.rounds + 1 < TWO_64 then s.rounds + 1 else 0)
  }

  /** The goal is blocked on its budget in the next revision, or the projection has failed because there
      was no revision left. */
  predicate BlockedFrom(s: Projection, t: Projection)
    requires s.current.Some?
  {
    var g := s.current.value;
    if g.revision < TWO_64 - 1 then
      && t.failure.None? && t.current.Some?
      && t.current.value == g.(revision := g.revision + 1, phase := Blocked, reason := t.current.value.reason)
      && t.current.value.reason.Some? && t.current.value.reason.value.code == "round-limit"
      && t.rounds == s.rounds
    else t.failure.Some?
  }

  /** A goal message that is not the exact next round of the live, armed goal. */
  predicate Unfit(live: bool, s: Projection, a: Activation, message: Json) {
    && GoalSource(message).Some?
    && var src := GoalSource(message).value;
       || !live || !Due(s, a)
       || GetString(src, "goalId") != s.current.value.id || GetUint(src, "revision") != s.current.value.revision
       || GetUint(src, "round") != (s.rounds + 1) % TWO_64
  }

  lemma RoundReads(id: string, prompt: string, g: Goal, round: Uint64)
    ensures
      var src := map["kind" := Text("goal"), "goalId" := Text(g.id), "revision" := Unsigned(g.revision), "round" := Unsigned(round)];
      var message := RoundMessage(id, prompt, src);
      && message.Object? && OptString(message.fields, "role") == Some("user")
      && OptString(message.fields, "id") == Some(id) && OptString(message.fields, "text") == Some(prompt)
      && OptString(src, "goalId") == Some(g.id) && OptUint(src, "revision") == Some(g.revision) && OptUint(src, "round") == Some(round)
  {}

  lemma SourceOf(id: string, prompt: string, src: map<string, Json>)
    ensures GoalSource(RoundMessage(id, prompt, src)) == if OptString(src, "kind") == Some("goal") then Some(src) else None
  {
    assert OptObject(RoundMessage(id, prompt, src).fields, "source") == Some(src);
  }

  lemma BlockBlocks(s: Projection, a: Activation, q: Request, cap: Uint64)
    requires Kept(s) && s.failure.None? && s.current.Some? && s.current.value.phase == Active
    requires q.ToBlock? && q.ref == Ref(s.current.value.id, s.current.value.revision)
    requires Trim(q.reason.code) != "" && Trim(q.reason.message) != ""
    ensures Propose(s, a, q, cap).Ok?
    ensures
      var t := Project(s, Changed(Encode(Propose(s, a, q, cap).value)));
      if s.current.value.revision < TWO_64 - 1 then t.failure.None? && Does(q, cap, s, t) else t.failure.Some?
  {
    hide Project, Encode, Decode, Does, OfKind, Trim, Refuses;
    RefusedExactly(s, a, q, cap);
    BlockNotRefused(s, a, q, cap);
    ServiceNeverTrips(s, a, q, cap);
    AcceptedDoes(s, a, q, cap);
  }

  lemma BlockNotRefused(s: Projection, a: Activation, q: Request, cap: Uint64)
    requires s.failure.None? && s.current.Some? && s.current.value.phase == Active
    requires q.ToBlock? && q.ref == Ref(s.current.value.id, s.current.value.revision)
    requires Trim(q.reason.code) != "" && Trim(q.reason.message) != ""
    ensures forall e :: !Refuses(s, a, q, cap, e)
  {
    hide Trim;
  }
}
