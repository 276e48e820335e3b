/**
 What the session actor answers to a request, and when (crates/dwo-agent-service/src/session.rs): in terms of the
 session's own state and of which saves succeed.
 */
module SessionReplies {
  import opened Common
  import opened Events
  import opened Permission
  import opened SessionActor
  import opened SessionRuns

  /** Asking a running turn to go on has nothing to say to it. */
  predicate AsksToGoOn(s: Session, p: Prompt) {
    p.origin.FromInside? && p.content == "" && !p.images && s.active.Some?
  }

  predicate OfUser(p: Prompt) {
    p.origin.FromUser? || p.origin.FromQuestionnaire?
  }

  /** Nothing that a session can have against a prompt as such holds. */
  predicate Welcome(s: Session, p: Prompt, w: PromptWorld) {
    && s.phase != ClosingDown && s.phase != Cancelling && s.compaction.None?
    && (s.life.ephemeral && s.life.completed ==> !OfUser(p)) && (p.images ==> w.imagesSupported)
  }

  /** Whatever has to be saved for the prompt is saved. */
  predicate AllSaved(s: Session, p: Prompt, w: PromptWorld) {
    && (s.life.deleteAfter.Some? ==> w.deadlineSaved)
    && (OfUser(p) ==> w.recorded) && (s.active.None? ==> w.contextSaved)
  }

  /** A prompt is accepted exactly if it is welcome, all is saved and a running turn still reads; or has nothing to say. */
  lemma PromptIsAccepted(s: Session, p: Prompt, w: PromptWorld)
    requires Inv(s) && !s.stopped
    ensures Handle(s, AskPrompt(p, w)).1.Accepted?
      <==> || (s.phase != ClosingDown && AsksToGoOn(s, p))
           || (Welcome(s, p, w) && AllSaved(s, p, w) && (s.active.Some? ==> w.steerOpen))
  {
  }

  /** Which error each other prompt gets; but for a failed save and a turn that no longer reads, it changes nothing. */
  lemma PromptIsRefused(s: Session, p: Prompt, w: PromptWorld)
    requires Inv(s) && !s.stopped
    ensures var (s', r) := Handle(s, AskPrompt(p, w));
            && (s.phase == ClosingDown ==> r == Refused(SessionClosed))
            && (s.phase == Cancelling && !AsksToGoOn(s, p) ==> r == Refused(PromptCancelled))
            && (s.phase != ClosingDown && s.phase != Cancelling && !AsksToGoOn(s, p) ==>
                  if (s.life.ephemeral && s.life.completed && OfUser(p)) || (p.images && !w.imagesSupported)
                  then r == Refused(InvalidConfig)
                  else if s.compaction.Some? then r == Refused(SessionBusy)
                  else if !AllSaved(s, p, w) then r == Refused(StorageFailed)
                  else if s.active.Some? && !w.steerOpen then r == Refused(SessionClosed)
                  else r.Accepted?)
            && (!Welcome(s, p, w) || AsksToGoOn(s, p) ==> s' == s)
  {
  }

  /** The receipt names the turn that runs, and the record of the prompt if a user sent it. */
  lemma ReceiptsAreTrue(s: Session, p: Prompt, w: PromptWorld)
    requires !s.stopped && Handle(s, AskPrompt(p, w)).1.Accepted?
    ensures var (s', r) := Handle(s, AskPrompt(p, w));
            && IsActive(s', r.turn) && (s.active.Some? ==> r.turn == s.active.value.id)
            && (r.message.Some? <==> OfUser(p))
            && s'.transcript == s.transcript
                 + if r.message.Some? then [UserPromptSubmitted(r.message.value, r.turn, p.content)] else []
  {
  }

  /** What each other request is answered; one that is refused changes nothing. */
  lemma RequestsAreAnswered(s: Session, m: Message)
    requires Inv(s) && !s.stopped
    ensures var (s', r) := Handle(s, m);
            match m
            case AskCancel(expected) =>
              var found := if s.active.Some? then expected.None? || expected == Some(s.active.value.id)
                           else s.compaction.Some? && expected.None?;
              if found then r == Done && s'.phase == Cancelling && Stopping(s') else r == Refused(NotActive) && s' == s
            case AskCompact(id, normalized, saved, _, _) =>
              if Busy(s) then r == Refused(SessionBusy) && s' == s
              else if !normalized then r == Refused(InvalidConfig) && s' == s
              else if !saved then r == Refused(StorageFailed) && s' == s
              else r == Done && s'.compaction == Some(Compaction(id, false))
            case AskKeep(saved) =>
              if !s.life.ephemeral then r == Kept(false) && s' == s
              else if saved then r == Kept(true) && !s'.life.ephemeral && s'.life.timer.None?
              else r == Refused(StorageFailed) && s' == s
            case AskRespond(request, allowed) =>
              if s.gate.pending.Some? && s.gate.pending.value.request == request then r == Done && s'.gate.pending.None?
              else r == Refused(PermissionNotFound) && s' == s
            case AskUnload(_, _) =>
              r == (if s.phase == ClosingDown then Refused(SessionClosed) else Done)
              && s'.phase == ClosingDown && (s'.stopped <==> !Busy(s))
            case _ => true
  {
  }

  /** The message speaks of a turn that is not the active one, or of a compaction that is not the running one. */
  predicate Stale(s: Session, m: Message) {
    || ((m.Streamed? || m.StepEnded? || m.ToolChanged? || m.ToolsInterrupted? || m.ToolDone? || m.TurnDone?)
        && (s.active.None? || s.active.value.id != m.turn))
    || (m.CompactionDone? && (s.compaction.None? || s.compaction.value.id != m.id))
  }

  /** What comes late changes nothing. */
  lemma StaleMessagesChangeNothing(s: Session, m: Message)
    requires Stale(s, m)
    ensures Handle(s, m).0 == s
  {
  }
}
