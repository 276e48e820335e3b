/**
 When an idle ephemeral session waits for its deletion (crates/dwo-agent-service/src/session.rs, the prompt
 handler and the end of a turn). The end of a turn sets a deadline. A prompt clears it before anything else
 that can fail, and nothing but the end of another turn sets it again.
 */
module SessionExpiry {
  import opened Common
  import opened SessionActor
  import opened SessionRuns
  import opened SessionHistory

  predicate EndsTurn(s: Session, m: Message) {
    m.TurnDone? && IsActive(s, m.turn)
  }

  /** A prompt clears the deadline and then fails, because the record, the context or the prompt is not saved. */
  predicate LosesDeadline(s: Session, m: Message) {
    && m.AskPrompt? && s.life.ephemeral && s.life.deleteAfter.Some? && PromptRefusal(s, m.prompt, m.world).None?
    && (!m.world.deadlineSaved || !m.world.contextSaved || (m.prompt.IsUser() && !m.world.recorded))
  }

  /** There was no deadline at first, or a prompt lost it, and no turn has ended since. */
  predicate DeadlineLost(s: Session, ms: seq<Message>) {
    if ms == [] then s.life.deleteAfter.None?
    else
      var s1, m := Run(s, ms[..|ms| - 1]), ms[|ms| - 1];
      LosesDeadline(s1, m) || (DeadlineLost(s, ms[..|ms| - 1]) && !EndsTurn(s1, m))
  }

  /** While an ephemeral session is idle it has a deadline, unless it lost it. */
  predicate AwaitsDeletion(s: Session, lost: bool) {
    !s.stopped && s.life.ephemeral && s.active.None? ==> (s.life.deleteAfter.None? <==> lost)
  }

  lemma PromptAwaitsDeletion(s: Session, m: Message, lost: bool)
    requires Inv(s) && !s.stopped && m.AskPrompt? && AwaitsDeletion(s, lost)
    ensures AwaitsDeletion(Handle(s, m).0, LosesDeadline(s, m) || lost)
  {
  }

  lemma OtherAwaitsDeletion(s: Session, m: Message, lost: bool)
    requires Inv(s) && !s.stopped && !m.AskPrompt? && AwaitsDeletion(s, lost)
    ensures AwaitsDeletion(Handle(s, m).0, lost && !EndsTurn(s, m))
  {
    if KeepsControl(m) {
      ContentKeepsControl(s, m);
    }
  }

  /**
   Over every run: an idle ephemeral session has no deadline exactly when it has had none since the run began, or
   since a prompt cleared it and then failed, with no turn ended after that.
   */
  lemma {:induction false} IdleSessionsAwaitDeletion(s: Session, ms: seq<Message>)
    requires Inv(s)
    ensures AwaitsDeletion(Run(s, ms), DeadlineLost(s, ms))
  {
    if ms != [] {
      var front, m := ms[..|ms| - 1], ms[|ms| - 1];
      var s1 := Run(s, front);
      IdleSessionsAwaitDeletion(s, front);
      RunKeepsInv(s, front);
      if !s1.stopped {
        if m.AskPrompt? {
          PromptAwaitsDeletion(s1, m, DeadlineLost(s, front));
        } else {
          OtherAwaitsDeletion(s1, m, DeadlineLost(s, front));
        }
      }
    }
  }

  lemma NoDeadlineStays(s: Session, m: Message)
    requires Inv(s) && !s.deleted && s.life.deleteAfter.None? && (s.stopped || !EndsTurn(s, m))
    ensures !Handle(s, m).0.deleted && Handle(s, m).0.life.deleteAfter.None?
  {
    if !s.stopped {
      DeadlineStep(s, m);
      if Handle(s, m).0.deleted {
        OnlyAlarmsDelete(s, m);
      }
    }
  }

  /** A session that has lost its deadline is never deleted by expiry as long as no further turn ends. */
  lemma {:induction false} LostDeadlinesNeverCome(s: Session, ms: seq<Message>)
    requires Inv(s) && !s.deleted && s.life.deleteAfter.None?
    requires forall k :: 0 <= k < |ms| ==> !EndsTurn(Run(s, ms[..k]), ms[k])
    ensures !Run(s, ms).deleted && Run(s, ms).life.deleteAfter.None?
  {
    if ms != [] {
      var front, m := ms[..|ms| - 1], ms[|ms| - 1];
      forall k | 0 <= k < |front| ensures !EndsTurn(Run(s, front[..k]), front[k]) {
        assert front[..k] == ms[..k];
      }
      LostDeadlinesNeverCome(s, front);
      RunKeepsInv(s, front);
      NoDeadlineStays(Run(s, front), m);
    }
  }
}
