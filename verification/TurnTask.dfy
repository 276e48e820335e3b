/**
 What runs one turn: its loop over model steps, and the queue of prompts steered into it
 while it runs (crates/dwo-agent-service/src/turn.rs; the retries of
 crates/dwo-agent-service/src/model_request.rs and the tool batch of
 crates/dwo-agent-service/src/tool_exec.rs drain the same queue).

 What the model, the tools, storage and the senders do is a script: per round of the loop, which calls
 fail and which messages arrive before each drain. The theorems hold for every script.
 */
module TurnTask {
  import opened Common
  import opened SessionActor

  datatype Failure = WasCancelled | DidFail

  /** One failed model request that is tried again: a drain, a wait, and a drain if messages came. */
  datatype Retry = Retry(
    arrivals: seq<Steer>, settled: Option<Failure>, waited: Option<Failure>, late: seq<Steer>, lateSettled: Option<Failure>)

  datatype ModelReply =
    | WithoutTools(arrivals: seq<Steer>, settled: Option<Failure>)
    | WithTools(arrivals: seq<Steer>, settled: Option<Failure>, cancelled: bool)

  /** One round of the loop; `None` where a call succeeds. */
  datatype Round = Round(
    cancelled: bool,
    begun: Option<Failure>,
    compacted: Option<Failure>,
    retries: seq<Retry>,
    requested: Option<Failure>,
    reply: ModelReply)

  /** The queue, everything ever sent to it, and the batches drained from it into the context. */
  datatype Turn = Turn(queue: seq<Steer>, sent: seq<Steer>, batches: seq<seq<Steer>>)

  function Arrive(t: Turn, ms: seq<Steer>): Turn {
    t.(queue := t.queue + ms, sent := t.sent + ms)
  }

  function Drain(t: Turn): Turn {
    t.(queue := [], batches := t.batches + [t.queue])
  }

  function Because(f: Failure): Outcome {
    if f.WasCancelled? then Cancelled else Failed
  }

  function PlayRetries(t: Turn, retries: seq<Retry>): (Turn, Option<Failure>)
    decreases retries
  {
    if retries == [] then (t, None)
    else
      var r := retries[0];
      var t1 := Drain(Arrive(t, r.arrivals));
      if r.settled.Some? then (t1, r.settled)
      else if r.waited.Some? then (t1, r.waited)
      else
        var t2 := Arrive(t1, r.late);
        if t2.queue == [] then PlayRetries(t2, retries[1..])
        else if r.lateSettled.Some? then (Drain(t2), r.lateSettled)
        else PlayRetries(Drain(t2), retries[1..])
  }

  /** One round: the turn afterwards, and its outcome if the loop ends here. */
  function PlayRound(t: Turn, r: Round): (Turn, Option<Outcome>) {
    if r.cancelled then (t, Some(Cancelled))
    else if r.begun.Some? then (t, Some(Because(r.begun.value)))
    else if r.compacted.Some? then (t, Some(Because(r.compacted.value)))
    else
      var (t1, failed) := PlayRetries(t, r.retries);
      if failed.Some? then (t1, Some(Because(failed.value)))
      else if r.requested.Some? then (t1, Some(Because(r.requested.value)))
      else Replied(t1, r)
  }

  /** The model has answered: what has been sent meanwhile is drained, and decides whether the turn goes on. */
  function Replied(t1: Turn, r: Round): (Turn, Option<Outcome>) {
    var before := Arrive(t1, r.reply.arrivals);
    var after := Drain(before);
    if r.reply.settled.Some? then (after, Some(Because(r.reply.settled.value)))
    else match r.reply
      case WithoutTools(_, _) => (after, if before.queue == [] then Some(Completed) else None)
      case WithTools(_, _, cancelled) => (after, if cancelled then Some(Cancelled) else None)
  }

  /** The loop. No outcome means the turn is still running when the script ends. */
  function Play(t: Turn, rounds: seq<Round>): (Turn, Option<Outcome>)
    decreases rounds
  {
    if rounds == [] then (t, None)
    else
      var (t1, outcome) := PlayRound(t, rounds[0]);
      if outcome.Some? then (t1, outcome) else Play(t1, rounds[1..])
  }

  function Flatten(batches: seq<seq<Steer>>): seq<Steer> {
    if batches == [] then [] else Flatten(batches[..|batches| - 1]) + batches[|batches| - 1]
  }

  /** First in, first out: what was drained, then what is still queued, is what was sent. */
  predicate Fifo(t: Turn) {
    Flatten(t.batches) + t.queue == t.sent
  }

  lemma ArriveKeepsFifo(t: Turn, ms: seq<Steer>)
    requires Fifo(t)
    ensures Fifo(Arrive(t, ms))
  {
  }

  lemma DrainKeepsFifo(t: Turn)
    requires Fifo(t)
    ensures Fifo(Drain(t)) && Flatten(Drain(t).batches) == t.sent
  {
    assert (t.batches + [t.queue])[..|t.batches|] == t.batches;
  }

  lemma {:induction false} RetriesKeepFifo(t: Turn, retries: seq<Retry>)
    requires Fifo(t)
    ensures Fifo(PlayRetries(t, retries).0)
    decreases retries
  {
    if retries != [] {
      var r := retries[0];
      ArriveKeepsFifo(t, r.arrivals);
      var t0 := Arrive(t, r.arrivals);
      DrainKeepsFifo(t0);
      var t1 := Drain(t0);
      ArriveKeepsFifo(t1, r.late);
      var t2 := Arrive(t1, r.late);
      DrainKeepsFifo(t2);
      RetriesKeepFifo(t2, retries[1..]);
      RetriesKeepFifo(Drain(t2), retries[1..]);
    }
  }

  /** The last drain found the queue empty, and every message ever sent is in an earlier batch. */
  predicate EndedDrained(t: Turn) {
    t.batches != [] && t.batches[|t.batches| - 1] == [] && t.queue == [] && Flatten(t.batches) == t.sent
  }

  lemma LastDrain(t: Turn, ms: seq<Steer>)
    requires Fifo(t)
    ensures var before := Arrive(t, ms);
            Fifo(Drain(before)) && (before.queue == [] ==> EndedDrained(Drain(before)))
  {
    ArriveKeepsFifo(t, ms);
    DrainKeepsFifo(Arrive(t, ms));
  }

  lemma ReplyKeepsFifo(t1: Turn, r: Round)
    requires Fifo(t1)
    ensures Fifo(Replied(t1, r).0)
    ensures Replied(t1, r).1 == Some(Completed) ==> EndedDrained(Replied(t1, r).0)
  {
    LastDrain(t1, r.reply.arrivals);
  }

  /** A round ends before anything is sent to the model, after the retries, or with the model's reply. */
  lemma RoundShape(t: Turn, r: Round)
    ensures var t1, result := PlayRetries(t, r.retries).0, PlayRound(t, r);
            result == Replied(t1, r) || ((result.0 == t || result.0 == t1) && result.1 != Some(Completed))
  {
  }

  lemma {:induction false} RoundKeepsFifo(t: Turn, r: Round)
    requires Fifo(t)
    ensures Fifo(PlayRound(t, r).0)
    ensures PlayRound(t, r).1 == Some(Completed) ==> EndedDrained(PlayRound(t, r).0)
  {
    var t1 := PlayRetries(t, r.retries).0;
    RetriesKeepFifo(t, r.retries);
    ReplyKeepsFifo(t1, r);
    RoundShape(t, r);
  }

  /**
   Over a whole turn the drained batches are, in order and without loss or repetition, the messages
   sent up to the last drain; and a turn completes only right after a drain that found nothing.
   */
  lemma {:induction false} SteeringIsFifo(t: Turn, rounds: seq<Round>)
    requires Fifo(t)
    ensures Fifo(Play(t, rounds).0)
    ensures Play(t, rounds).1 == Some(Completed) ==> EndedDrained(Play(t, rounds).0)
    decreases rounds
  {
    if rounds != [] {
      RoundKeepsFifo(t, rounds[0]);
      SteeringIsFifo(PlayRound(t, rounds[0]).0, rounds[1..]);
    }
  }

  /** A turn completes only with a reply without tools before whose drain no message came; no earlier round ended it. */
  lemma {:induction false} CompletesOnAnUnansweredReply(t: Turn, rounds: seq<Round>) returns (k: nat)
    requires Play(t, rounds).1 == Some(Completed)
    ensures k < |rounds| && rounds[k].reply.WithoutTools? && rounds[k].reply.arrivals == []
    ensures Play(t, rounds[..k]).1.None? && Play(t, rounds) == PlayRound(Play(t, rounds[..k]).0, rounds[k])
    decreases rounds
  {
    var (t1, outcome) := PlayRound(t, rounds[0]);
    if outcome.Some? {
      k := 0;
      RoundShape(t, rounds[0]);
    } else {
      k := CompletesOnAnUnansweredReply(t1, rounds[1..]);
      assert rounds[..k + 1][1..] == rounds[1..][..k];
      k := k + 1;
    }
  }

  /** Every request for a model's reply, and every renewed one, is made with nothing left in the queue. */
  lemma {:induction false} RequestsLeaveNothingQueued(t: Turn, retries: seq<Retry>)
    requires t.queue == [] && PlayRetries(t, retries).1.None?
    ensures PlayRetries(t, retries).0.queue == []
    ensures forall k :: 0 <= k <= |retries| ==>
              PlayRetries(t, retries[..k]).1.None? && PlayRetries(t, retries[..k]).0.queue == []
    decreases retries
  {
    assert retries[..|retries|] == retries;
    if retries != [] {
      var r := retries[0];
      var t2 := Arrive(Drain(Arrive(t, r.arrivals)), r.late);
      var next := if t2.queue == [] then t2 else Drain(t2);
      RequestsLeaveNothingQueued(next, retries[1..]);
      forall k | 0 <= k <= |retries|
        ensures PlayRetries(t, retries[..k]).1.None? && PlayRetries(t, retries[..k]).0.queue == []
      {
        if k > 0 {
          assert retries[..k][0] == r && retries[..k][1..] == retries[1..][..k - 1];
        }
      }
    }
  }

  /** And so is the first request of every round. */
  lemma {:induction false} RoundsBeginWithNothingQueued(t: Turn, rounds: seq<Round>)
    requires t.queue == [] && Play(t, rounds).1.None?
    ensures Play(t, rounds).0.queue == []
    decreases rounds
  {
    if rounds != [] {
      RoundsBeginWithNothingQueued(PlayRound(t, rounds[0]).0, rounds[1..]);
    }
  }

  /** What goes wrong first in a round, in the order in which it is tried. */
  function FirstTrouble(t: Turn, r: Round): Option<Failure> {
    if r.cancelled then Some(WasCancelled)
    else if r.begun.Some? then r.begun
    else if r.compacted.Some? then r.compacted
    else if PlayRetries(t, r.retries).1.Some? then PlayRetries(t, r.retries).1
    else if r.requested.Some? then r.requested
    else if r.reply.settled.Some? then r.reply.settled
    else if r.reply.WithTools? && r.reply.cancelled then Some(WasCancelled)
    else None
  }

  /** What a round ends the turn with: cancelled or failed as its first trouble is, else completed when nothing is left. */
  lemma RoundOutcome(t: Turn, r: Round)
    ensures var outcome := PlayRound(t, r).1;
            && (outcome == Some(Cancelled) <==> FirstTrouble(t, r) == Some(WasCancelled))
            && (outcome == Some(Failed) <==> FirstTrouble(t, r) == Some(DidFail))
            && (outcome == Some(Completed) ==> FirstTrouble(t, r) == None)
            && (FirstTrouble(t, r) == None && r.reply.WithTools? ==> outcome == None)
  {
  }

  /**
   Over a whole turn: it ends in the first round that ends it, cancelled exactly if the first trouble of that round
   is a cancellation, failed exactly if it is a failure, and completed exactly if there is none.
   */
  lemma {:induction false} OutcomesHaveCauses(t: Turn, rounds: seq<Round>) returns (k: nat)
    requires Play(t, rounds).1.Some?
    ensures k < |rounds| && Play(t, rounds[..k]).1.None?
    ensures var outcome, trouble := Play(t, rounds).1.value, FirstTrouble(Play(t, rounds[..k]).0, rounds[k]);
            && (outcome == Cancelled <==> trouble == Some(WasCancelled))
            && (outcome == Failed <==> trouble == Some(DidFail))
            && (outcome == Completed <==> trouble == None)
    decreases rounds
  {
    RoundOutcome(t, rounds[0]);
    var (t1, outcome) := PlayRound(t, rounds[0]);
    if outcome.Some? {
      k := 0;
    } else {
      k := OutcomesHaveCauses(t1, rounds[1..]);
      assert rounds[..k + 1][1..] == rounds[1..][..k];
      k := k + 1;
    }
  }

  // ---------------------------------------------------------------- the loop itself

  class Execution {
    var steer: seq<Steer>        // the unbounded channel
    var context: seq<Steer>      // the steered messages in the model context
    ghost var sent: seq<Steer>
    ghost var batches: seq<seq<Steer>>

    ghost function Now(): Turn
      reads this
    {
      Turn(steer, sent, batches)
    }

    /** The context holds exactly what was drained. */
    ghost predicate Valid()
      reads this
    {
      context == Flatten(batches)
    }

    constructor ()
      ensures Valid() && Now() == Turn([], [], [])
    {
      steer, context, sent, batches := [], [], [], [];
    }

    method Send(ms: seq<Steer>)
      modifies this`steer, this`sent
      ensures Now() == Arrive(old(Now()), ms)
    {
      steer := steer + ms;
      sent := sent + ms;
    }

    /** take_steer_messages: receive until the channel has nothing more. */
    method TakeSteerMessages() returns (messages: seq<Steer>)
      modifies this`steer
      ensures messages == old(steer) && steer == []
    {
      messages := [];
      while steer != []
        invariant messages + steer == old(steer)
        decreases |steer|
      {
        messages := messages + [steer[0]];
        steer := steer[1..];
      }
    }

    /** settle: drain into the context, then save a checkpoint, which may fail. */
    method Settle(saved: Option<Failure>) returns (shouldContinue: bool, failed: Option<Failure>)
      requires Valid()
      modifies this
      ensures Valid() && Now() == Drain(old(Now()))
      ensures failed == saved && shouldContinue == (old(steer) != [])
    {
      var messages := TakeSteerMessages();
      context := context + messages;
      batches := batches + [messages];
      assert batches[..|batches| - 1] == old(batches);
      return messages != [], saved;
    }

    method RequestModel(retries: seq<Retry>) returns (failed: Option<Failure>)
      requires Valid()
      modifies this
      ensures Valid() && (Now(), failed) == PlayRetries(old(Now()), retries)
    {
      var rest := retries;
      while rest != []
        invariant Valid() && PlayRetries(Now(), rest) == PlayRetries(old(Now()), retries)
        decreases |rest|
      {
        var r := rest[0];
        Send(r.arrivals);
        var _, unsaved := Settle(r.settled);
        if unsaved.Some? {
          return unsaved;
        }
        if r.waited.Some? {
          return r.waited;
        }
        Send(r.late);
        if steer != [] {
          var _, lateUnsaved := Settle(r.lateSettled);
          if lateUnsaved.Some? {
            return lateUnsaved;
          }
        }
        rest := rest[1..];
      }
      return None;
    }

    /** apply_reply: whether another round follows. */
    method ApplyReply(reply: ModelReply) returns (again: bool, failed: Option<Failure>)
      requires Valid()
      modifies this
      ensures Valid() && Now() == Drain(Arrive(old(Now()), reply.arrivals))
      ensures failed == if reply.settled.Some? then reply.settled
                        else if reply.WithTools? && reply.cancelled then Some(WasCancelled) else None
      ensures failed.None? ==> again == (reply.WithTools? || old(steer) + reply.arrivals != [])
    {
      Send(reply.arrivals);
      again, failed := Settle(reply.settled);
      if failed.Some? || reply.WithoutTools? {
        return;
      }
      again := true;
      if reply.cancelled {
        failed := Some(WasCancelled);
      }
    }

    method RunRound(r: Round) returns (outcome: Option<Outcome>)
      requires Valid()
      modifies this
      ensures Valid() && (Now(), outcome) == PlayRound(old(Now()), r)
    {
      if r.cancelled {
        return Some(Cancelled);
      }
      if r.begun.Some? {
        return Some(Because(r.begun.value));
      }
      if r.compacted.Some? {
        return Some(Because(r.compacted.value));
      }
      var failed := RequestModel(r.retries);
      if failed.None? {
        failed := r.requested;
      }
      if failed.Some? {
        return Some(Because(failed.value));
      }
      var again, unsettled := ApplyReply(r.reply);
      if unsettled.Some? {
        return Some(Because(unsettled.value));
      }
      return if again then None else Some(Completed);
    }

    /** run_loop */
    method RunLoop(rounds: seq<Round>) returns (outcome: Option<Outcome>)
      requires Valid()
      modifies this
      ensures Valid() && (Now(), outcome) == Play(old(Now()), rounds)
    {
      var rest := rounds;
      while rest != []
        invariant Valid() && Play(Now(), rest) == Play(old(Now()), rounds)
        decreases |rest|
      {
        outcome := RunRound(rest[0]);
        if outcome.Some? {
          return;
        }
        rest := rest[1..];
      }
      return None;
    }
  }
}
