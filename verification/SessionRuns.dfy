/**
 The control invariant of the session actor: in every reachable state at most one thing is in progress,
 and phase, pending permission, close and expiry deadline agree with it.
 */
module SessionRuns {
  import opened Common
  import opened Events
  import opened Permission
  import opened TerminalCache
  import opened SessionActor

  function Run(s: Session, ms: seq<Message>): Session {
    if ms == [] then s else Handle(Run(s, ms[..|ms| - 1]), ms[|ms| - 1]).0
  }

  // ---------------------------------------------------------------- control

  /** The turn or compaction in progress has been told to stop. */
  predicate Stopping(s: Session) {
    (s.active.Some? ==> s.active.value.cancelled) && (s.compaction.Some? ==> s.compaction.value.cancelled)
  }

  predicate Busy(s: Session) {
    s.active.Some? || s.compaction.Some?
  }

  /** Between two messages of a running actor. */
  ghost predicate Inv(s: Session) {
    !s.stopped ==>
      && !(s.active.Some? && s.compaction.Some?)
      && (s.phase.Idle? <==> !Busy(s))
      && (s.gate.pending.Some? <==> s.phase.WaitingPermission?)
      && (s.gate.pending.Some? ==> IsActive(s, s.gate.pending.value.turn))
      && (s.phase.Running? ==> s.active.Some?)
      && (s.phase.Compacting? ==> s.compaction.Some?)
      && (s.phase.Cancelling? ==> Stopping(s))
      && (s.phase.ClosingDown? ==> s.closing.Some?)
      && (s.closing.Some? ==> Busy(s) && Stopping(s))
      && !s.deleted
      && s.life.timer == s.life.deleteAfter
      && (s.life.deleteAfter.Some? ==> s.life.ephemeral)
      && (s.active.Some? ==> s.life.deleteAfter.None?)
  }

  lemma HousekeepingKeepsControl(s: Session, payloads: seq<Payload>)
    ensures var r := HandleHousekeeping(s, payloads);
            r == s.(transcript := r.transcript, seqNo := r.seqNo, events := r.events)
    decreases payloads
  {
    if payloads != [] {
      var p := payloads[0];
      var s1 := if p.Journal? then Record(s, p, true) else if p.Setting? then Broadcast(s, p) else s;
      HousekeepingKeepsControl(s1, payloads[1..]);
    }
  }

  lemma InterruptKeepsControl(s: Session, turn: TurnId, calls: seq<ToolCall>, status: string, flags: seq<bool>)
    ensures var r := Interrupt(s, turn, calls, status, flags);
            r == s.(transcript := r.transcript, seqNo := r.seqNo, events := r.events)
    decreases calls
  {
    if calls != [] {
      var saved := flags == [] || flags[0];
      var rest := if flags == [] then [] else flags[1..];
      if Terminal(calls[0].status) {
        InterruptKeepsControl(s, turn, calls[1..], status, rest);
      } else {
        InterruptKeepsControl(Record(s, ToolUpdated(turn, calls[0].(status := status)), saved), turn, calls[1..], status, rest);
      }
    }
  }

  lemma PromptKeepsInv(s: Session, p: Prompt, w: PromptWorld)
    requires Inv(s) && !s.stopped
    ensures Inv(HandlePrompt(s, p, w).0)
  {
  }

  lemma RequestKeepsInv(s: Session, m: Message)
    requires Inv(s) && !s.stopped
    requires m.AskCancel? || m.AskCompact? || m.AskKeep? || m.AskUnload? || m.AskRespond? || m.HandlesDropped?
    ensures Inv(Handle(s, m).0)
  {
  }

  /** Only what a prompt may touch differs, besides a deadline it may clear. */
  predicate TurnTouches(s: Session, s': Session) {
    s' == s.(active := s'.active, phase := s'.phase, transcript := s'.transcript, seqNo := s'.seqNo, events := s'.events)
  }

  lemma StartTouches(s: Session, p: Prompt, w: PromptWorld)
    ensures TurnTouches(s, StartTurn(s, p, w).0)
  {
  }

  lemma SteerTouches(s: Session, p: Prompt, w: PromptWorld)
    requires s.active.Some?
    ensures TurnTouches(s, SteerTurn(s, p, w).0)
  {
  }

  lemma PromptFrame(s: Session, p: Prompt, w: PromptWorld)
    ensures var s' := HandlePrompt(s, p, w).0;
            && TurnTouches(s, s'.(life := s.life))
            && (s'.life == s.life || s'.life == s.life.(deleteAfter := None, timer := None))
  {
    if PromptRefusal(s, p, w).None? {
      var s1 := if s.life.ephemeral && s.life.deleteAfter.Some?
                then s.(life := s.life.(deleteAfter := None, timer := None)) else s;
      if s1.active.Some? {
        SteerTouches(s1, p, w);
      } else {
        StartTouches(s1, p, w);
      }
    }
  }

  /** Only the content of the active turn, the terminals, the transcript and the broadcast differ. */
  predicate SameControl(s: Session, s': Session) {
    && (s'.active.Some? <==> s.active.Some?)
    && (s.active.Some? ==> s'.active.value.id == s.active.value.id && s'.active.value.cancelled == s.active.value.cancelled)
    && s' == s.(active := s'.active, views := s'.views, live := s'.live,
                transcript := s'.transcript, seqNo := s'.seqNo, events := s'.events)
  }

  lemma SameControlKeepsInv(s: Session, s': Session)
    requires Inv(s) && SameControl(s, s')
    ensures Inv(s')
  {
  }

  predicate KeepsControl(m: Message) {
    m.Streamed? || m.StepEnded? || m.ToolChanged? || m.ToolsInterrupted? || m.ToolDone? || m.Observed? || m.Housekeeping?
  }

  lemma ObservedKeepsControl(s: Session, m: Message)
    requires m.Observed?
    ensures SameControl(s, Handle(s, m).0)
  {
  }

  lemma TurnContentKeepsControl(s: Session, m: Message)
    requires m.Streamed? || m.StepEnded? || m.ToolChanged? || m.ToolDone?
    ensures SameControl(s, Handle(s, m).0)
  {
  }

  lemma {:induction false} ContentKeepsControl(s: Session, m: Message)
    requires KeepsControl(m)
    ensures SameControl(s, Handle(s, m).0)
  {
    match m
    case ToolsInterrupted(turn, status, flags) =>
      if IsActive(s, turn) {
        InterruptKeepsControl(s.(active := Some(s.active.value.(tools := []))), turn, s.active.value.tools, status, flags);
      }
    case Housekeeping(payloads) => HousekeepingKeepsControl(s, payloads);
    case Observed(_, _, _) => ObservedKeepsControl(s, m);
    case _ => TurnContentKeepsControl(s, m);
  }

  lemma EndKeepsInv(s: Session, m: Message)
    requires Inv(s) && !s.stopped && (m.TurnDone? || m.CompactionDone?)
    ensures Inv(Handle(s, m).0)
  {
  }

  lemma OtherEventKeepsInv(s: Session, m: Message)
    requires Inv(s) && !s.stopped && (m.PermissionAsked? || m.TimerFired?)
    ensures Inv(Handle(s, m).0)
  {
  }

  lemma {:induction false} HandleKeepsInv(s: Session, m: Message)
    requires Inv(s)
    ensures Inv(Handle(s, m).0)
  {
    if !s.stopped {
      match m
      case AskPrompt(p, w) => PromptKeepsInv(s, p, w);
      case AskCancel(_) => RequestKeepsInv(s, m);
      case AskCompact(_, _, _, _, _) => RequestKeepsInv(s, m);
      case AskKeep(_) => RequestKeepsInv(s, m);
      case AskUnload(_, _) => RequestKeepsInv(s, m);
      case AskRespond(_, _) => RequestKeepsInv(s, m);
      case HandlesDropped => RequestKeepsInv(s, m);
      case TurnDone(_, _, _, _) => EndKeepsInv(s, m);
      case CompactionDone(_, _, _, _, _) => EndKeepsInv(s, m);
      case PermissionAsked(_, _) => OtherEventKeepsInv(s, m);
      case TimerFired(_) => OtherEventKeepsInv(s, m);
      case _ =>
        ContentKeepsControl(s, m);
        SameControlKeepsInv(s, Handle(s, m).0);
    }
  }

  lemma {:induction false} RunKeepsInv(s: Session, ms: seq<Message>)
    requires Inv(s)
    ensures Inv(Run(s, ms))
  {
    if ms != [] {
      RunKeepsInv(s, ms[..|ms| - 1]);
      HandleKeepsInv(Run(s, ms[..|ms| - 1]), ms[|ms| - 1]);
    }
  }

  /** In every reachable state: one thing in progress at a time, and phase, permission, close and expiry agree with it. */
  lemma {:induction false} RunsKeepInv(life: Life, transcript: seq<Payload>, ms: seq<Message>)
    requires life.deleteAfter.Some? ==> life.ephemeral
    ensures Inv(Run(Init(life, transcript), ms))
  {
    RunKeepsInv(Init(life, transcript), ms);
  }
}
