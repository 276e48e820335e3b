/**
 Turns and compactions that have been told to stop (crates/dwo-agent-service/src/session.rs): which are, what is
 still taken for such a turn, and how the end of a compaction is recorded.
 */
module CancelledTurns {
  import opened Common
  import opened Events
  import opened Permission
  import opened SessionActor
  import opened SessionRuns
  import opened SessionEmissions
  import Steering

  // ---------------------------------------------------------------- nothing more for a turn that is being stopped

  /** The turn is active and being stopped, or the actor is gone. */
  predicate BeingStopped(s: Session, turn: TurnId) {
    s.stopped || (IsActive(s, turn) && (s.phase.Cancelling? || s.phase.ClosingDown?))
  }

  /** The turn ends, or a request for its permission comes late and moves the phase. */
  predicate Interferes(m: Message, turn: TurnId) {
    (m.TurnDone? || m.PermissionAsked?) && m.turn == turn
  }

  ghost predicate NoPrompts(ps: seq<Payload>) {
    forall p :: p in ps ==> !p.UserPromptSubmitted?
  }

  lemma KindsWithoutPrompt(m: Message, p: Payload)
    requires MayEmit(m, p) && !m.AskPrompt?
    ensures !p.UserPromptSubmitted?
  {
  }

  lemma PromptChangesNothing(s: Session, m: Message, turn: TurnId)
    requires Inv(s) && !s.stopped && BeingStopped(s, turn) && m.AskPrompt?
    ensures Handle(s, m).0 == s && Emitted(s, m) == []
  {
  }

  lemma OtherKeepsBeingStopped(s: Session, m: Message, turn: TurnId)
    requires Inv(s) && !s.stopped && BeingStopped(s, turn) && !m.AskPrompt? && !Interferes(m, turn)
    ensures BeingStopped(Handle(s, m).0, turn)
  {
    if KeepsControl(m) {
      ContentKeepsControl(s, m);
    }
  }

  lemma {:induction false} StoppingStep(s: Session, m: Message, turn: TurnId)
    requires Inv(s) && !s.stopped && BeingStopped(s, turn) && !Interferes(m, turn)
    ensures var s' := Handle(s, m).0;
            && BeingStopped(s', turn) && NoPrompts(Emitted(s, m))
            && (!s'.stopped ==> s'.active.value.steered == s.active.value.steered)
  {
    if m.AskPrompt? {
      PromptChangesNothing(s, m, turn);
    } else {
      OtherKeepsBeingStopped(s, m, turn);
      EmittedKinds(s, m);
      forall p | p in Emitted(s, m) ensures !p.UserPromptSubmitted? {
        KindsWithoutPrompt(m, p);
      }
      Steering.StepSteers(s, m);
    }
  }

  /** What has been added to transcript and broadcast holds no prompt. */
  ghost predicate NoPromptAdded(s: Session, now: Session) {
    && s.transcript <= now.transcript && s.events <= now.events
    && (forall i :: |s.transcript| <= i < |now.transcript| ==> !now.transcript[i].UserPromptSubmitted?)
    && (forall i :: |s.events| <= i < |now.events| ==> !now.events[i].payload.UserPromptSubmitted?)
  }

  lemma {:induction false} NumberedPayloads(last: nat, ps: seq<Payload>)
    ensures forall i :: 0 <= i < |ps| ==> NumberFrom(last, ps)[i].payload == ps[i]
  {
    if ps != [] {
      NumberedPayloads(last, ps[..|ps| - 1]);
    }
  }

  lemma {:induction false} RecordedArePart(ps: seq<Payload>)
    ensures forall p :: p in RecordedOnly(ps) ==> p in ps
  {
    if ps != [] {
      RecordedArePart(ps[..|ps| - 1]);
      assert forall p :: p in ps[..|ps| - 1] ==> p in ps;
    }
  }

  lemma {:induction false} NoneAdded(s: Session, s1: Session, s2: Session, ps: seq<Payload>)
    requires NoPromptAdded(s, s1) && Sends(s1, s2, ps) && NoPrompts(ps)
    ensures NoPromptAdded(s, s2)
  {
    NumberedPayloads(s1.seqNo, ps);
    RecordedArePart(ps);
    forall i | |s1.transcript| <= i < |s2.transcript| ensures !s2.transcript[i].UserPromptSubmitted? {
      assert s2.transcript[i] in RecordedOnly(ps);
    }
    forall i | |s1.events| <= i < |s2.events| ensures !s2.events[i].payload.UserPromptSubmitted? {
      assert s2.events[i].payload == ps[i - |s1.events|];
    }
  }

  /**
   Over every run: until the turn ends or is asked for a permission once more, a turn that is being stopped takes
   no prompt. What was sent into it stays as it was, and neither transcript nor broadcast gets another prompt.
   */
  lemma {:induction false} StoppedTurnsTakeNoPrompt(s: Session, ms: seq<Message>, turn: TurnId)
    requires Inv(s) && !s.stopped && BeingStopped(s, turn)
    requires forall k :: 0 <= k < |ms| ==> !Interferes(ms[k], turn)
    ensures var now := Run(s, ms);
            && BeingStopped(now, turn) && NoPromptAdded(s, now)
            && (!now.stopped ==> now.active.value.steered == s.active.value.steered)
  {
    if ms != [] {
      var front, m := ms[..|ms| - 1], ms[|ms| - 1];
      var s1 := Run(s, front);
      assert forall k :: 0 <= k < |front| ==> front[k] == ms[k];
      StoppedTurnsTakeNoPrompt(s, front, turn);
      RunKeepsInv(s, front);
      if !s1.stopped {
        StoppingStep(s1, m, turn);
        HandleSends(s1, m);
        NoneAdded(s, s1, Handle(s1, m).0, Emitted(s1, m));
      }
    }
  }

  /** An accepted cancel, or a close, of a running turn begins this. */
  lemma CancelsAndClosesStop(s: Session, m: Message)
    requires Inv(s) && !s.stopped && s.active.Some?
    requires (m.AskCancel? && Handle(s, m).1 == Done) || m.AskUnload?
    ensures BeingStopped(Handle(s, m).0, s.active.value.id) && Handle(s, m).0.active.Some?
  {
  }

  // ---------------------------------------------------------------- who has been told to stop

  /** The message tells the active turn to stop. */
  predicate StopsTurn(s: Session, m: Message) {
    !s.stopped && s.active.Some?
    && ((m.AskCancel? && (m.expected.None? || m.expected.value == s.active.value.id))
        || (m.AskUnload? && !s.phase.ClosingDown?))
  }

  /** The message tells the running compaction to stop. */
  predicate StopsCompaction(s: Session, m: Message) {
    !s.stopped && s.active.None? && s.compaction.Some?
    && ((m.AskCancel? && m.expected.None?) || (m.AskUnload? && !s.phase.ClosingDown?))
  }

  /** The active turn has been told to stop since it started. */
  predicate TurnTold(s: Session, ms: seq<Message>) {
    if ms == [] then s.active.Some? && s.active.value.cancelled
    else
      var s1, m := Run(s, ms[..|ms| - 1]), ms[|ms| - 1];
      s1.active.Some? && (StopsTurn(s1, m) || TurnTold(s, ms[..|ms| - 1]))
  }

  predicate CompactionTold(s: Session, ms: seq<Message>) {
    if ms == [] then s.compaction.Some? && s.compaction.value.cancelled
    else
      var s1, m := Run(s, ms[..|ms| - 1]), ms[|ms| - 1];
      s1.compaction.Some? && (StopsCompaction(s1, m) || CompactionTold(s, ms[..|ms| - 1]))
  }

  predicate FlagsAre(s: Session, turn: bool, compaction: bool) {
    && (s.active.Some? ==> (s.active.value.cancelled <==> turn))
    && (s.compaction.Some? ==> (s.compaction.value.cancelled <==> compaction))
  }

  lemma PromptFlags(s: Session, m: Message, turn: bool, compaction: bool)
    requires Inv(s) && !s.stopped && m.AskPrompt? && FlagsAre(s, turn, compaction)
    ensures FlagsAre(Handle(s, m).0, s.active.Some? && turn, compaction)
  {
  }

  lemma RequestFlags(s: Session, m: Message, turn: bool, compaction: bool)
    requires Inv(s) && !s.stopped && FlagsAre(s, turn, compaction)
    requires m.AskCancel? || m.AskCompact? || m.AskKeep? || m.AskUnload? || m.AskRespond? || m.HandlesDropped?
    ensures FlagsAre(Handle(s, m).0, s.active.Some? && (StopsTurn(s, m) || turn),
                     s.compaction.Some? && (StopsCompaction(s, m) || compaction))
  {
  }

  lemma EventFlags(s: Session, m: Message, turn: bool, compaction: bool)
    requires Inv(s) && !s.stopped && FlagsAre(s, turn, compaction)
    requires m.TurnDone? || m.CompactionDone? || m.PermissionAsked? || m.TimerFired?
    ensures FlagsAre(Handle(s, m).0, s.active.Some? && turn, s.compaction.Some? && compaction)
  {
    if m.TurnDone? {
      EndFlags(s, m, turn, compaction);
    }
  }

  lemma EndFlags(s: Session, m: Message, turn: bool, compaction: bool)
    requires !s.stopped && FlagsAre(s, turn, compaction) && m.TurnDone?
    ensures FlagsAre(Handle(s, m).0, s.active.Some? && turn, s.compaction.Some? && compaction)
  {
  }

  lemma {:induction false} FlagsStep(s: Session, m: Message, turn: bool, compaction: bool)
    requires Inv(s) && !s.stopped && FlagsAre(s, turn, compaction)
    ensures FlagsAre(Handle(s, m).0, s.active.Some? && (StopsTurn(s, m) || turn),
                     s.compaction.Some? && (StopsCompaction(s, m) || compaction))
  {
    if m.AskPrompt? {
      PromptFlags(s, m, turn, compaction);
    } else if KeepsControl(m) {
      ContentKeepsControl(s, m);
    } else if m.TurnDone? || m.CompactionDone? || m.PermissionAsked? || m.TimerFired? {
      EventFlags(s, m, turn, compaction);
    } else {
      RequestFlags(s, m, turn, compaction);
    }
  }

  /** Over every run: exactly what has been told to stop since it started is marked as such. */
  lemma {:induction false} OnlyTheToldAreCancelled(s: Session, ms: seq<Message>)
    requires Inv(s)
    ensures Run(s, ms).stopped || FlagsAre(Run(s, ms), TurnTold(s, ms), CompactionTold(s, ms))
  {
    if ms != [] {
      var front, m := ms[..|ms| - 1], ms[|ms| - 1];
      var s1 := Run(s, front);
      OnlyTheToldAreCancelled(s, front);
      RunKeepsInv(s, front);
      if !s1.stopped {
        FlagsStep(s1, m, TurnTold(s, front), CompactionTold(s, front));
      }
    }
  }

  // ---------------------------------------------------------------- how a compaction is recorded

  /** What a compaction that ends is recorded as. */
  lemma {:induction false} CompactionsAreReported(s: Session, ms: seq<Message>, m: Message)
    requires Inv(s) && !Run(s, ms).stopped && m.CompactionDone? && m.recorded
    requires Run(s, ms).compaction.Some? && Run(s, ms).compaction.value.id == m.id
    ensures var at, then' := Run(s, ms), Handle(Run(s, ms), m).0;
            && |then'.transcript| == |at.transcript| + 1 && at.transcript <= then'.transcript
            && var news := then'.transcript[|at.transcript|];
               && (news == Journal("compaction_cancelled") <==> CompactionTold(s, ms))
               && (news == Journal("compaction_completed") <==> !CompactionTold(s, ms) && m.succeeded)
               && (news == Journal("compaction_failed") <==> !CompactionTold(s, ms) && !m.succeeded)
  {
    OnlyTheToldAreCancelled(s, ms);
    var at := Run(s, ms);
    HandleSends(at, m);
    CompactionRecord(at, m);
  }

  lemma CompactionRecord(s: Session, m: Message)
    requires !s.stopped && m.CompactionDone? && m.recorded
    requires s.compaction.Some? && s.compaction.value.id == m.id
    ensures Handle(s, m).0.transcript == s.transcript
              + [Journal(if s.compaction.value.cancelled then "compaction_cancelled"
                         else if m.succeeded then "compaction_completed" else "compaction_failed")]
  {
  }

  /** And one that begins. */
  lemma CompactionStarts(s: Session, m: Message)
    requires !s.stopped && m.AskCompact? && Handle(s, m).1 == Done && m.recorded
    ensures Handle(s, m).0.transcript == s.transcript + [Journal("compaction_started")]
  {
  }
}
