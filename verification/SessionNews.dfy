/**
 What the broadcast tells of the world (crates/dwo-agent-service/src/session.rs, events of the turn task and
 requests): every piece of news but deltas, tool calls, prompts and settings goes back, one by one and in order, to
 a message that the actor took, and says what that message says.
 */
module SessionNews {
  import opened Common
  import opened Events
  import opened Permission
  import opened SessionActor
  import opened SessionRuns
  import opened SessionEmissions
  import opened SessionReplies
  import opened Following
  import opened TerminalCache

  // ---------------------------------------------------------------- news

  /** What happened, as the messages have it. */
  datatype Report =
    | Spoke(turn: TurnId, interrupted: bool, content: string)
    | TerminalBegan(turn: TurnId, id: TerminalId)
    | TerminalWrote(turn: TurnId, id: TerminalId, data: seq<byte>)
    | TerminalLeft(turn: TurnId, id: TerminalId)
    | Asked(turn: TurnId, request: RequestId)
    | Answered(turn: TurnId, request: RequestId, allowed: bool)
    | Began(turn: TurnId)
    | ClosesDown

  predicate IsNews(p: Payload) {
    || p.AssistantCompleted? || p.AssistantInterrupted? || p.TerminalOpened? || p.TerminalOutput? || p.TerminalExited?
    || p.PermissionRequested? || p.PermissionResolved? || p.TurnStarted? || p.Closing?
  }

  /** The news is of the report's kind and says the same. */
  predicate Says(p: Payload, r: Report) {
    match r
    case Spoke(turn, interrupted, content) =>
      && (if interrupted then p.AssistantInterrupted? else p.AssistantCompleted?)
      && p.turn == turn && p.content == content
    case TerminalBegan(turn, id) => p == TerminalOpened(turn, id)
    case TerminalWrote(turn, id, data) => p == TerminalOutput(turn, id, data)
    case TerminalLeft(turn, id) => p == TerminalExited(turn, id)
    case Asked(turn, request) => p == PermissionRequested(turn, request)
    case Answered(turn, request, allowed) => p == PermissionResolved(turn, request, allowed)
    case Began(turn) => p == TurnStarted(turn)
    case ClosesDown => p == Closing
  }

  /** What a message that a running actor takes reports, if its record, where it has one, is saved. */
  function ReportOf(s: Session, m: Message): Option<Report> {
    match m
    case StepEnded(turn, interrupted, content, _, _, recorded) =>
      if IsActive(s, turn) && recorded then Some(Spoke(turn, interrupted, content)) else None
    case Observed(turn, Opened(_, id, _, _), recorded) => if recorded then Some(TerminalBegan(turn, id)) else None
    case Observed(turn, Output(id, data), _) => Some(TerminalWrote(turn, id, data))
    case Observed(turn, Exited(id, _, _), recorded) => if recorded then Some(TerminalLeft(turn, id)) else None
    case PermissionAsked(turn, request) => if IsActive(s, turn) then Some(Asked(turn, request)) else None
    case AskRespond(request, allowed) =>
      if s.gate.pending.Some? && s.gate.pending.value.request == request
      then Some(Answered(s.gate.pending.value.turn, request, allowed)) else None
    case AskPrompt(_, w) => if Handle(s, m).0.active.Some? && s.active.None? then Some(Began(w.turn)) else None
    case AskUnload(_, _) => if s.phase != ClosingDown then Some(ClosesDown) else None
    case _ => None
  }

  function Reports(s: Session, ms: seq<Message>): seq<Report> {
    if ms == [] then []
    else
      var s1, m := Run(s, ms[..|ms| - 1]), ms[|ms| - 1];
      Reports(s, ms[..|ms| - 1])
      + if !s1.stopped && ReportOf(s1, m).Some? then [ReportOf(s1, m).value] else []
  }

  function Heard(news: seq<Payload>, p: Payload): seq<Payload> {
    if IsNews(p) then news + [p] else news
  }

  ghost predicate SaidOneByOne(news: seq<Payload>, reports: seq<Report>) {
    |news| == |reports| && forall i :: 0 <= i < |news| ==> Says(news[i], reports[i])
  }

  // ---------------------------------------------------------------- one message

  /** The news that a message makes the actor broadcast, at most one, is its report. */
  ghost predicate NewsIsReport(s: Session, m: Message) {
    forall news ::
      var more := TakeAll(Heard, news, Emitted(s, m));
      match ReportOf(s, m)
      case None => more == news
      case Some(r) => |more| == |news| + 1 && news <= more && Says(more[|news|], r)
  }

  lemma KindsWithoutNews(news: seq<Payload>, m: Message, p: Payload)
    requires MayEmit(m, p) && ReportsNothing(m)
    ensures Heard(news, p) == news
  {
  }

  predicate ReportsNothing(m: Message) {
    !m.StepEnded? && !m.Observed? && !m.PermissionAsked? && !m.AskRespond? && !m.AskPrompt? && !m.AskUnload?
  }

  lemma {:induction false} SilentMessage(s: Session, m: Message)
    requires ReportsNothing(m)
    ensures NewsIsReport(s, m)
  {
    EmittedKinds(s, m);
    forall news ensures TakeAll(Heard, news, Emitted(s, m)) == news {
      forall p | p in Emitted(s, m) ensures Heard(news, p) == news {
        KindsWithoutNews(news, m, p);
      }
      TakeNothing(Heard, news, Emitted(s, m));
    }
  }

  lemma {:induction false} OneNews(s: Session, m: Message, sent: bool, p: Payload)
    requires Emitted(s, m) == When(sent, p)
    requires match ReportOf(s, m) case None => !sent || !IsNews(p) case Some(r) => sent && IsNews(p) && Says(p, r)
    ensures NewsIsReport(s, m)
  {
    forall news ensures TakeAll(Heard, news, Emitted(s, m)) == if sent then Heard(news, p) else news {
      TakeWhen(Heard, news, sent, p);
    }
  }

  lemma {:induction false} SpokenNews(s: Session, m: Message)
    requires m.StepEnded?
    ensures NewsIsReport(s, m)
  {
    if IsActive(s, m.turn) {
      OneNews(s, m, m.recorded, StepNews(s.active.value, m.interrupted, m.content));
    } else {
      OneNews(s, m, false, Closing);
    }
  }

  lemma {:induction false} StartingNews(s: Session, m: Message)
    requires m.AskPrompt? && !s.stopped && StartsTurn(s, m.prompt, m.world)
    ensures NewsIsReport(s, m)
  {
    StartNews(s, m);
    var preamble, start := Preamble(m.prompt, m.world), TurnStarted(m.world.turn);
    assert ReportOf(s, m) == Some(Began(m.world.turn));
    forall news ensures TakeAll(Heard, news, Emitted(s, m)) == news + [start] {
      PreambleIsNoNews(news, m.prompt, m.world);
      TakeOne(Heard, news, preamble, start);
    }
  }

  lemma {:induction false} SteeringNews(s: Session, m: Message)
    requires m.AskPrompt? && !s.stopped && !StartsTurn(s, m.prompt, m.world)
    ensures NewsIsReport(s, m)
  {
    StartOrNot(s, m.prompt, m.world);
    assert ReportOf(s, m) == None;
    PromptIsQuiet(s, m.prompt, m.world);
    forall news ensures TakeAll(Heard, news, Emitted(s, m)) == news {
      TakeNothing(Heard, news, Emitted(s, m));
    }
  }

  lemma {:induction false} PromptsNews(s: Session, m: Message)
    requires m.AskPrompt? && !s.stopped
    ensures NewsIsReport(s, m)
  {
    if StartsTurn(s, m.prompt, m.world) {
      StartingNews(s, m);
    } else {
      SteeringNews(s, m);
    }
  }

  lemma {:induction false} PreambleIsNoNews(news: seq<Payload>, p: Prompt, w: PromptWorld)
    ensures TakeAll(Heard, news, Preamble(p, w)) == news
  {
    forall q | q in Preamble(p, w) ensures Heard(news, q) == news {
      assert q.UserPromptSubmitted? || q.Setting?;
    }
    TakeNothing(Heard, news, Preamble(p, w));
  }

  lemma StartOrNot(s: Session, p: Prompt, w: PromptWorld)
    requires !s.stopped && !StartsTurn(s, p, w)
    ensures s.active.None? ==> HandlePrompt(s, p, w).0.active.None?
  {
    if s.active.None? {
      StartOrSilence(s, p, w);
    }
  }

  lemma {:induction false} EveryNewsIsReport(s: Session, m: Message)
    requires !s.stopped
    ensures NewsIsReport(s, m)
  {
    match m
    case StepEnded(_, _, _, _, _, _) => SpokenNews(s, m);
    case Observed(turn, e, recorded) => OneNews(s, m, e.Output? || recorded, TelemetryNews(turn, e));
    case PermissionAsked(turn, request) => OneNews(s, m, IsActive(s, turn), PermissionRequested(turn, request));
    case AskRespond(request, allowed) =>
      if s.gate.Answers(request) {
        OneNews(s, m, true, PermissionResolved(s.gate.pending.value.turn, request, allowed));
      } else {
        OneNews(s, m, false, Closing);
      }
    case AskUnload(_, _) => OneNews(s, m, !s.phase.ClosingDown?, Closing);
    case AskPrompt(_, _) => PromptsNews(s, m);
    case _ => SilentMessage(s, m);
  }

  // ---------------------------------------------------------------- whole runs

  /** Over every run: the news in the broadcast is, one by one and in order, what the messages reported. */
  lemma {:induction false} NewsSaysWhatHappened(s: Session, ms: seq<Message>)
    ensures s.events <= Run(s, ms).events
    ensures SaidOneByOne(Follow(Heard, [], Run(s, ms).events[|s.events|..]), Reports(s, ms))
  {
    if ms == [] {
      assert s.events[|s.events|..] == [];
    } else {
      var front, m := ms[..|ms| - 1], ms[|ms| - 1];
      var s1 := Run(s, front);
      NewsSaysWhatHappened(s, front);
      if !s1.stopped {
        FollowNext(Heard, [], s, s1, m);
        OneMoreSaid(Follow(Heard, [], s1.events[|s.events|..]), Reports(s, front), s1, m);
      }
    }
  }

  lemma {:induction false} OneMoreSaid(news: seq<Payload>, reports: seq<Report>, s: Session, m: Message)
    requires !s.stopped && SaidOneByOne(news, reports)
    ensures SaidOneByOne(TakeAll(Heard, news, Emitted(s, m)),
                         reports + if ReportOf(s, m).Some? then [ReportOf(s, m).value] else [])
  {
    EveryNewsIsReport(s, m);
    assert NewsIsReport(s, m);
  }

  // ---------------------------------------------------------------- prompts, settings and the journal

  function Said(sent: bool, p: Payload): seq<Payload> {
    if sent then [p] else []
  }

  /** What a prompt makes the actor broadcast, in its own terms: itself, the settings that it moves, and the start. */
  lemma {:induction false} PromptsAreAnnounced(s: Session, p: Prompt, w: PromptWorld)
    requires Inv(s) && !s.stopped
    ensures var user := OfUser(p);
            var announced := Handle(s, AskPrompt(p, w)).0.events;
            announced == s.events + NumberFrom(s.seqNo,
              if !Welcome(s, p, w) || AsksToGoOn(s, p) || (s.life.deleteAfter.Some? && !w.deadlineSaved) then []
              else if s.active.Some? then Said(user && w.recorded, UserPromptSubmitted(w.userMessage, s.active.value.id, p.content))
              else if !AllSaved(s, p, w) then []
              else Said(user, UserPromptSubmitted(w.userMessage, w.turn, p.content)) + Said(user && w.title.Some?, Setting("title"))
                   + Said(w.usageChanged, Setting("usage")) + [TurnStarted(w.turn)])
  {
    HandleSends(s, AskPrompt(p, w));
  }

  lemma {:induction false} EveryEntryIsKept(payloads: seq<Payload>)
    requires forall p :: p in payloads ==> p.Journal? || p.Setting?
    ensures Housekept(payloads) == payloads
    decreases payloads
  {
    if payloads != [] {
      EveryEntryIsKept(payloads[1..]);
    }
  }

  /** What a compaction, a touched file and the other handlers announce. */
  lemma {:induction false} EntriesAreAnnounced(s: Session, m: Message)
    requires !s.stopped
    ensures var announced := Handle(s, m).0.events;
            match m
            case AskCompact(_, _, _, usageChanged, recorded) =>
              Handle(s, m).1 == Done ==>
                announced == s.events + NumberFrom(s.seqNo, Said(usageChanged, Setting("usage"))
                                                            + Said(recorded, Journal("compaction_started")))
            case CompactionDone(id, succeeded, usageChanged, recorded, _) =>
              s.compaction.Some? && s.compaction.value.id == id ==>
                announced == s.events + NumberFrom(s.seqNo,
                  Said(recorded, Journal(if s.compaction.value.cancelled then "compaction_cancelled"
                                         else if succeeded then "compaction_completed" else "compaction_failed"))
                  + Said(usageChanged, Setting("usage")))
            case Observed(_, FileTouched(entry), recorded) =>
              announced == s.events + NumberFrom(s.seqNo, Said(recorded, Journal(entry)))
            case Housekeeping(payloads) =>
              (forall p :: p in payloads ==> p.Journal? || p.Setting?) ==> announced == s.events + NumberFrom(s.seqNo, payloads)
            case _ => true
  {
    HandleSends(s, m);
    if m.Housekeeping? && forall p :: p in m.payloads ==> p.Journal? || p.Setting? {
      EveryEntryIsKept(m.payloads);
    }
  }

  // ---------------------------------------------------------------- decisions on permissions

  /** The messages that can take a pending request away. */
  lemma OnlyTheseSettle(s: Session, m: Message)
    requires Inv(s) && !s.stopped && s.gate.pending.Some?
    requires Handle(s, m).0.gate.pending != s.gate.pending
    ensures m.AskCancel? || m.AskUnload? || m.AskRespond? || m.HandlesDropped? || m.TurnDone? || m.PermissionAsked?
  {
    if KeepsControl(m) {
      ContentKeepsControl(s, m);
    } else if m.AskPrompt? {
      PromptFrame(s, m.prompt, m.world);
    }
  }

  /** Why a request was rejected is what happened to it. */
  lemma RejectionsNameTheirCause(s: Session, m: Message)
    requires Inv(s) && !s.stopped && s.gate.pending.Some?
    requires Handle(s, m).0.gate.pending != s.gate.pending
    ensures |Handle(s, m).0.gate.decisions| == |s.gate.decisions| + 1
    ensures var verdict := Handle(s, m).0.gate.decisions[|s.gate.decisions|].verdict;
            && (verdict == Rejected(TurnWasCancelled) <==> m.AskCancel?)
            && (verdict == Rejected(TurnWasFinished) <==> m.TurnDone?)
            && (verdict == Rejected(SessionWasClosed) <==> m.AskUnload? || m.HandlesDropped?)
            && (verdict == Rejected(Replaced) <==> m.PermissionAsked?)
            && (m.AskRespond? ==> verdict == Responded(m.allowed))
  {
    OnlyTheseSettle(s, m);
  }

  /** A request that comes for a turn that is not active is refused and never waits. */
  lemma LateRequestsAreRefused(s: Session, turn: TurnId, request: RequestId)
    requires !s.stopped && !IsActive(s, turn)
    ensures Handle(s, PermissionAsked(turn, request)).0
            == s.(gate := Gate(s.gate.pending, s.gate.decisions + [Decision(turn, request, Rejected(TurnNotActive))]))
  {
  }

  // ---------------------------------------------------------------- the ids of a finished message

  /** The turn stays active. */
  ghost predicate StaysActive(s: Session, ms: seq<Message>, turn: TurnId) {
    forall k :: 0 <= k <= |ms| ==> !Run(s, ms[..k]).stopped && IsActive(Run(s, ms[..k]), turn)
  }

  /** A delta of the active turn, in no later step than the one it is in, and in that one under its ids. */
  predicate IdsFit(p: Payload, a: ActiveTurn) {
    IsDelta(p) && p.turn == a.id ==>
      && p.stepId <= a.stepId
      && (p.stepId == a.stepId ==> p.message == if p.ReasoningDelta? then a.thought else a.message)
  }

  ghost predicate AllIdsFit(events: seq<Event>, from: nat, a: ActiveTurn) {
    forall i :: from <= i < |events| ==> IdsFit(events[i].payload, a)
  }

  lemma {:induction false} NumberedPayload(last: nat, ps: seq<Payload>, i: nat)
    requires i < |ps|
    ensures NumberFrom(last, ps)[i].payload == ps[i]
  {
    if i < |ps| - 1 {
      NumberedPayload(last, ps[..|ps| - 1], i);
    }
  }

  lemma {:induction false} EmittedIdsFit(s: Session, m: Message, from: nat, a: ActiveTurn)
    requires !s.stopped && from <= |s.events| && AllIdsFit(s.events, from, a)
    requires forall p :: p in Emitted(s, m) ==> IdsFit(p, a)
    ensures AllIdsFit(Handle(s, m).0.events, from, a)
  {
    HandleSends(s, m);
    NumberedIdsFit(s.events, s.seqNo, Emitted(s, m), from, a);
  }

  lemma {:induction false} NumberedIdsFit(events: seq<Event>, last: nat, ps: seq<Payload>, from: nat, a: ActiveTurn)
    requires from <= |events| && AllIdsFit(events, from, a) && forall p :: p in ps ==> IdsFit(p, a)
    ensures AllIdsFit(events + NumberFrom(last, ps), from, a)
  {
    forall i | |events| <= i < |events| + |ps| ensures IdsFit((events + NumberFrom(last, ps))[i].payload, a) {
      NumberedPayload(last, ps, i - |events|);
      assert ps[i - |events|] in ps;
    }
  }

  lemma StepMoves(s: Session, m: Message)
    requires !s.stopped && s.active.Some? && (m.Streamed? || m.StepEnded?)
    ensures var s' := Handle(s, m).0;
            s'.active.Some? && s'.active.value.id == s.active.value.id
            && (if m.StepEnded? && IsActive(s, m.turn) then s'.active.value.stepId > s.active.value.stepId
                else s'.active.value.stepId == s.active.value.stepId
                     && s'.active.value.message == s.active.value.message
                     && s'.active.value.thought == s.active.value.thought)
    ensures forall p :: p in Emitted(s, m) ==> IdsFit(p, s.active.value)
  {
  }

  lemma {:induction false} IdsStayFit(s: Session, m: Message, from: nat)
    requires !s.stopped && s.active.Some? && from <= |s.events| && AllIdsFit(s.events, from, s.active.value)
    requires Handle(s, m).0.active.Some? && !Handle(s, m).0.stopped
    ensures AllIdsFit(Handle(s, m).0.events, from, Handle(s, m).0.active.value)
  {
    var a := s.active.value;
    if m.Streamed? || m.StepEnded? {
      StepMoves(s, m);
      EmittedIdsFit(s, m, from, a);
    } else if !m.TurnDone? || !IsActive(s, m.turn) {
      if m.TurnDone? {
        assert Emitted(s, m) == [] && Handle(s, m).0 == s;
      } else {
        OthersAreQuiet(s, m);
        OthersKeepStep(s, m);
        forall p | p in Emitted(s, m) ensures IdsFit(p, a) {
          assert Quiet(p);
        }
      }
      EmittedIdsFit(s, m, from, a);
    }
  }

  /** From the start of a turn on, the deltas broadcast of its current step carry the ids its message will have. */
  lemma {:induction false} DeltasCarryTheirIds(s: Session, w: PromptWorld, ms: seq<Message>)
    requires s.active == Some(NewTurn(w)) && StaysActive(s, ms, w.turn)
    ensures |s.events| <= |Run(s, ms).events| && Run(s, ms).active.Some?
    ensures AllIdsFit(Run(s, ms).events, |s.events|, Run(s, ms).active.value)
  {
    assert ms[..|ms|] == ms;
    if ms != [] {
      var front, m := ms[..|ms| - 1], ms[|ms| - 1];
      forall k | 0 <= k <= |front| ensures !Run(s, front[..k]).stopped && IsActive(Run(s, front[..k]), w.turn) {
        assert front[..k] == ms[..k];
      }
      DeltasCarryTheirIds(s, w, front);
      assert front[..|front|] == front;
      IdsStayFit(Run(s, front), m, |s.events|);
      HandleSends(Run(s, front), m);
    }
  }

  /** So the message that finishes a step carries the ids under which it was streamed, and its own text. */
  lemma {:induction false} FinishedMessagesKeepTheirIds(s: Session, w: PromptWorld, ms: seq<Message>, m: Message, i: nat)
    requires s.active == Some(NewTurn(w)) && StaysActive(s, ms, w.turn)
    requires m.StepEnded? && m.turn == w.turn && m.recorded
    requires |s.events| <= i < |Run(s, ms).events|
    ensures Run(s, ms).active.Some?
    ensures var at := Run(s, ms);
            var p, e := at.events[i].payload, Handle(at, m).0.events;
            && |e| == |at.events| + 1
            && var done := e[|at.events|].payload;
               && (done.AssistantInterrupted? || done.AssistantCompleted?) && (done.AssistantInterrupted? <==> m.interrupted)
               && done.content == m.content
               && (IsDelta(p) && p.turn == w.turn && p.stepId == at.active.value.stepId ==>
                     p.message == if p.ReasoningDelta? then done.thought else done.message)
  {
    assert ms[..|ms|] == ms;
    DeltasCarryTheirIds(s, w, ms);
    assert IdsFit(Run(s, ms).events[i].payload, Run(s, ms).active.value);
    HandleSends(Run(s, ms), m);
  }
}
