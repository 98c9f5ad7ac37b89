/** The agent loop's step accumulator and what it commits (plugins/agent-loop/src/agent.cpp:58-228). */
module Accumulator {
  import opened Basics
  import opened Streams

  /** The open blocks in index order, closed as they stand. */
  ghost function Ordered(open: map<nat, OpenBlock>, n: nat): seq<Block> {
    if n == 0 then [] else Ordered(open, n - 1) + if n - 1 in open then [Close(open[n - 1])] else []
  }

  ghost predicate Bound(open: map<nat, OpenBlock>, n: nat) {
    Below(open.Keys, n)
  }

  ghost predicate Below(keys: set<nat>, n: nat) {
    forall i | i in keys :: i < n
  }

  /** What a step commits: a message, a failed attempt, or nothing; and how the step ends, if it does. */
  datatype Committed = Message(blocks: seq<Block>, replay: Option<Replay>, interrupted: bool) | Attempt | Nothing

  datatype RunStatus = Completed | TruncatedRun | AbortedRun | ErrorRun

  class StepAccumulator {
    var closed: seq<Block>
    var open: map<nat, OpenBlock>
    var usage: Option<Usage>
    var failure: Option<Failure>
    var replay: Option<Replay>
    var why: Why

    ghost function State(): Acc
      reads this
    {
      Acc(closed, open, usage, why, failure, replay)
    }

    constructor ()
      ensures State() == EMPTY
    {
      closed, open, usage, failure, replay, why := [], map[], None, None, None, Stopped;
    }

    method Push(chunk: Chunk)
      modifies this
      ensures State() == Pushed(old(State()), chunk)
    {
      match chunk
      case Start(i, k) =>
        if i !in open {
          open := open[i := OpenBlock(k, "", "", "")];
        }
      case TextDelta(i, t) => Append(i, t);
      case ReasoningDelta(i, t) => Append(i, t);
      case ToolDelta(i, id, name, t) =>
        Append(i, t);
        open := open[i := open[i].(kind := ToolKind)];
        if id != "" {
          open := open[i := open[i].(id := id)];
        }
        if name != "" {
          open := open[i := open[i].(name := name)];
        }
      case End(i, b) =>
        open := open - {i};
        closed := closed + [b];
      case Used(u) => usage := Some(u);
      case Finish(w, f, r) =>
        why := w;
        failure := f;
        replay := r;
    }

    method Append(i: nat, t: string)
      modifies this`open
      ensures open == old(open)[i := At(old(open), i).(text := At(old(open), i).text + t)]
    {
      if i !in open {
        open := open[i := OpenBlock(TextKind, "", "", "")];
      }
      open := open[i := open[i].(text := open[i].text + t)];
    }

    /** The closed blocks, then the open ones in index order. */
    method DeliveredBlocks() returns (result: seq<Block>)
      ensures exists n :: Bound(open, n) && result == closed + Ordered(open, n)
      ensures forall n | Bound(open, n) :: result == closed + Ordered(open, n)
    {
      result := closed;
      var done: nat, todo := 0, open.Keys;
      while todo != {}
        invariant todo <= open.Keys
        invariant forall i | i in open :: i in todo <==> i >= done
        invariant result == closed + Ordered(open, done)
        decreases |todo|
      {
        HasLeast(todo);
        var i: nat :| IsLeast(todo, i);
        Gap(open, done, i);
        result := result + [Close(open[i])];
        done := i + 1;
        todo := todo - {i};
      }
      forall n: nat | Bound(open, n) ensures result == closed + Ordered(open, n) {
        if done <= n {
          Gap(open, done, n);
        } else {
          Gap(open, n, done);
        }
      }
      BoundExists(open);
    }

    /** Commits the step: an interrupted stream commits what was delivered, a failed one an attempt. */
    method Commit(maxTokensAsSuccess: bool) returns (committed: Committed, terminal: Option<RunStatus>)
      ensures why != Aborted && failure.Some? ==> committed == Attempt && terminal == Some(ErrorRun)
      ensures why == Aborted ==>
        terminal == Some(AbortedRun)
        && forall n | Bound(open, n) ::
             var blocks := closed + Ordered(open, n);
             committed == if blocks == [] then Attempt else Message(blocks, replay, true)
      ensures why != Aborted && failure.None? ==>
        && committed == (if closed == [] then Nothing else Message(closed, replay, false))
        && terminal == (match why
                        case Failed => Some(ErrorRun)
                        case MaxTokens => Some(if maxTokensAsSuccess then Completed else TruncatedRun)
                        case _ => None)
    {
      var interrupted := why == Aborted;
      var blocks := closed;
      if interrupted {
        blocks := DeliveredBlocks();
      }
      if failure.Some? && !interrupted {
        return Attempt, Some(ErrorRun);
      }
      committed := Nothing;
      if blocks != [] {
        committed := Message(blocks, replay, interrupted);
      } else if interrupted {
        committed := Attempt;
      }
      terminal := None;
      if interrupted {
        terminal := Some(AbortedRun);
      } else if why == Failed {
        terminal := Some(ErrorRun);
      } else if why == MaxTokens {
        terminal := Some(if maxTokensAsSuccess then Completed else TruncatedRun);
      }
    }
  }

  /** Nothing is open between two indices: the ordered blocks below them are the same. */
  lemma {:induction false} Gap(open: map<nat, OpenBlock>, m: nat, n: nat)
    requires m <= n && forall i | i in open :: i < m || i >= n
    ensures Ordered(open, m) == Ordered(open, n)
    decreases n
  {
    if m < n {
      Gap(open, m, n - 1);
    }
  }

  lemma {:induction false} BelowSomething(keys: set<nat>)
    ensures exists n :: Below(keys, n)
  {
    if keys == {} {
      assert Below(keys, 0);
    } else {
      var x :| x in keys;
      BelowSomething(keys - {x});
      var n :| Below(keys - {x}, n);
      var m := if x < n then n else x + 1;
      assert forall i | i in keys :: i == x || i in keys - {x};
      assert Below(keys, m);
    }
  }

  /** The order of the delivered blocks is always determined. */
  lemma BoundExists(open: map<nat, OpenBlock>)
    ensures exists n :: Bound(open, n)
  {
    BelowSomething(open.Keys);
    var n :| Below(open.Keys, n);
    assert Bound(open, n);
  }
}
