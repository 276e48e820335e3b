/**
 How the end of a turn is told (crates/dwo-agent-service/src/session.rs, the end of a turn; turn.rs, what it
 reports): every end in the broadcast is that of a message, says what the message says, and the message what the
 turn's task came to.
 */
module TurnEnds {
  import opened Common
  import opened Events
  import opened SessionActor
  import opened SessionRuns
  import opened SessionEmissions
  import opened SessionExpiry
  import opened Following
  import opened TurnTask

  /** An end as a subscriber reads it. */
  predicate Tells(p: Payload, turn: TurnId, outcome: Outcome) {
    && IsTurnEnd(p) && p.turn == turn
    && (p.TurnCompleted? <==> outcome.Completed?)
    && (p.TurnCancelled? <==> outcome.Cancelled?)
    && (p.TurnFailed? <==> outcome.Failed?)
  }

  function Noted(ends: seq<Payload>, p: Payload): seq<Payload> {
    if IsTurnEnd(p) then ends + [p] else ends
  }

  /** The ends in the broadcast, in their order. */
  function EndsIn(events: seq<Event>): seq<Payload> {
    Follow(Noted, [], events)
  }

  /** The messages that ended the active turn, in their order. */
  function Reports(s: Session, ms: seq<Message>): seq<(TurnId, Outcome)> {
    if ms == [] then []
    else
      var s1, m := Run(s, ms[..|ms| - 1]), ms[|ms| - 1];
      Reports(s, ms[..|ms| - 1]) + if !s1.stopped && EndsTurn(s1, m) then [(m.turn, m.outcome)] else []
  }

  ghost predicate ToldOneByOne(ends: seq<Payload>, reports: seq<(TurnId, Outcome)>) {
    |ends| == |reports| && forall i :: 0 <= i < |ends| ==> Tells(ends[i], reports[i].0, reports[i].1)
  }

  lemma KindsWithoutEnd(ends: seq<Payload>, m: Message, p: Payload)
    requires MayEmit(m, p) && !m.TurnDone?
    ensures Noted(ends, p) == ends
  {
  }

  lemma {:induction false} EndStep(ends: seq<Payload>, s: Session, m: Message, reports: seq<(TurnId, Outcome)>)
    requires !s.stopped && ToldOneByOne(ends, reports)
    ensures ToldOneByOne(TakeAll(Noted, ends, Emitted(s, m)),
                         reports + if EndsTurn(s, m) then [(m.turn, m.outcome)] else [])
  {
    if m.TurnDone? {
      TakeWhen(Noted, ends, IsActive(s, m.turn), Ending(m.turn, m.outcome));
    } else {
      EmittedKinds(s, m);
      forall p | p in Emitted(s, m) ensures Noted(ends, p) == ends {
        KindsWithoutEnd(ends, m, p);
      }
      TakeNothing(Noted, ends, Emitted(s, m));
    }
  }

  /**
   Over every run: the ends in the broadcast are, one by one and in order, those of the messages that ended the
   active turn, and each is completed, cancelled or failed exactly if its message says so.
   */
  lemma {:induction false} EndsTellTheirOutcomes(s: Session, ms: seq<Message>)
    ensures s.events <= Run(s, ms).events
    ensures ToldOneByOne(EndsIn(Run(s, ms).events[|s.events|..]), Reports(s, ms))
  {
    if ms == [] {
      assert s.events[|s.events|..] == [];
    } else {
      var front, m := ms[..|ms| - 1], ms[|ms| - 1];
      var s1 := Run(s, front);
      EndsTellTheirOutcomes(s, front);
      if !s1.stopped {
        FollowNext(Noted, [], s, s1, m);
        EndStep(EndsIn(s1.events[|s.events|..]), s1, m, Reports(s, front));
      }
    }
  }

  /** Every report of a turn comes from its task, which reports what its script played to. */
  ghost predicate ReportedByTask(ms: seq<Message>, turn: TurnId, start: Turn, rounds: seq<Round>) {
    forall k :: 0 <= k < |ms| && ms[k].TurnDone? && ms[k].turn == turn ==> Play(start, rounds).1 == Some(ms[k].outcome)
  }

  lemma {:induction false} ReportsAreMessages(s: Session, ms: seq<Message>, i: nat) returns (k: nat)
    requires i < |Reports(s, ms)|
    ensures k < |ms| && ms[k].TurnDone? && ms[k].turn == Reports(s, ms)[i].0 && ms[k].outcome == Reports(s, ms)[i].1
  {
    var n := |ms| - 1;
    if i < |Reports(s, ms[..n])| {
      k := ReportsAreMessages(s, ms[..n], i);
    } else {
      k := n;
    }
  }

  /**
   From the task to the broadcast: the end of a turn that a subscriber reads is completed, cancelled or failed
   exactly if the script of the turn played to that; and completed only after a round whose reply had no tools and
   before whose drain no prompt came.
   */
  lemma {:induction false} EndsTellWhatWasPlayed(
    s: Session, ms: seq<Message>, turn: TurnId, start: Turn, rounds: seq<Round>, i: nat)
    requires ReportedByTask(ms, turn, start, rounds)
    requires s.events <= Run(s, ms).events && i < |EndsIn(Run(s, ms).events[|s.events|..])|
    ensures var p := EndsIn(Run(s, ms).events[|s.events|..])[i];
            IsTurnEnd(p) &&
            (p.turn == turn ==>
               && Play(start, rounds).1.Some? && Tells(p, turn, Play(start, rounds).1.value)
               && (p.TurnCompleted? ==>
                     exists k :: 0 <= k < |rounds| && rounds[k].reply.WithoutTools? && rounds[k].reply.arrivals == []))
  {
    EndsTellTheirOutcomes(s, ms);
    var k := ReportsAreMessages(s, ms, i);
    if ms[k].turn == turn && ms[k].outcome.Completed? {
      var j := CompletesOnAnUnansweredReply(start, rounds);
    }
  }

  // ---------------------------------------------------------------- sessions that have completed a turn

  /** A turn has completed while the session was ephemeral. */
  predicate CompletedOnce(s: Session, ms: seq<Message>) {
    if ms == [] then s.life.completed
    else
      var s1, m := Run(s, ms[..|ms| - 1]), ms[|ms| - 1];
      CompletedOnce(s, ms[..|ms| - 1])
      || (!s1.stopped && EndsTurn(s1, m) && s1.life.ephemeral && m.outcome.Completed?)
  }

  lemma CompletedStep(s: Session, m: Message)
    requires !s.stopped
    ensures Handle(s, m).0.life.completed
            <==> s.life.completed || (EndsTurn(s, m) && s.life.ephemeral && m.outcome.Completed?)
  {
    if KeepsControl(m) {
      ContentKeepsControl(s, m);
    } else if m.AskPrompt? {
      PromptFrame(s, m.prompt, m.world);
    } else if m.TurnDone? {
      EndCompletes(s, m);
    } else if m.CompactionDone? {
      CompactionsCompleteNothing(s, m);
    } else if m.PermissionAsked? || m.TimerFired? {
      EventsCompleteNothing(s, m);
    } else {
      RequestsCompleteNothing(s, m);
    }
  }

  lemma EndCompletes(s: Session, m: Message)
    requires !s.stopped && m.TurnDone?
    ensures Handle(s, m).0.life.completed
            <==> s.life.completed || (IsActive(s, m.turn) && s.life.ephemeral && m.outcome.Completed?)
  {
  }

  lemma CompactionsCompleteNothing(s: Session, m: Message)
    requires m.CompactionDone?
    ensures Handle(s, m).0.life.completed == s.life.completed
  {
  }

  lemma EventsCompleteNothing(s: Session, m: Message)
    requires m.PermissionAsked? || m.TimerFired?
    ensures Handle(s, m).0.life.completed == s.life.completed
  {
  }

  lemma RequestsCompleteNothing(s: Session, m: Message)
    requires m.AskCancel? || m.AskCompact? || m.AskKeep? || m.AskUnload? || m.AskRespond? || m.HandlesDropped?
    ensures Handle(s, m).0.life.completed == s.life.completed
  {
  }

  /** Over every run: an ephemeral session has done its work, and takes no more of a user, once a turn has completed. */
  lemma {:induction false} CompletionIsRemembered(s: Session, ms: seq<Message>)
    ensures Run(s, ms).life.completed <==> CompletedOnce(s, ms)
  {
    if ms != [] {
      CompletionIsRemembered(s, ms[..|ms| - 1]);
      if !Run(s, ms[..|ms| - 1]).stopped {
        CompletedStep(Run(s, ms[..|ms| - 1]), ms[|ms| - 1]);
      }
    }
  }
}
