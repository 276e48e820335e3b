/**
 The session actor: one request or event is handled at a time, and every change it makes to a
 session's phase, active turn, manual compaction, pending permission, parked close, expiry deadline
 and numbered broadcast stream happens here (crates/dwo-agent-service/src/session.rs).

 `Handle` gives the effect of one message as a function; the module SessionRuns proves what every run
 keeps, and the module Actor holds the actor in its own, imperative form, a class whose methods compute
 the function's state.
 The outcome of storage calls, the clock and freshly made ids are parameters of the message.
 */
module SessionActor {
  import opened Common
  import opened Events
  import opened Permission
  import opened TerminalCache

  const EPHEMERAL_GRACE_MS := 5 * 60 * 1000

  datatype Phase = Idle | Running | Compacting | WaitingPermission | Cancelling | ClosingDown

  /** A message sent into a running turn. */
  datatype Steer = Steer(fromUser: bool, content: string)

  datatype ActiveTurn = ActiveTurn(
    id: TurnId,
    cancelled: bool,
    response: string,
    reasoning: string,
    stepId: nat,
    revision: nat,
    message: MessageId,
    thought: MessageId,
    tools: seq<ToolCall>,
    steered: seq<Steer>)

  datatype Compaction = Compaction(id: nat, cancelled: bool)

  /** What is sent to a caller of unload: whether the last save succeeded, or that the session is closing already. */
  datatype CloseResult = Unloaded | NotSaved | ClosingAlready

  datatype CloseAnswer = CloseAnswer(close: nat, result: CloseResult)

  /** The part of the record that decides a session's lifetime, and the timer armed for it. */
  datatype Life = Life(ephemeral: bool, completed: bool, deleteAfter: Option<nat>, timer: Option<nat>)

  datatype Session = Session(
    phase: Phase,
    active: Option<ActiveTurn>,
    compaction: Option<Compaction>,
    gate: Gate,
    closing: Option<nat>,
    closeAnswers: seq<CloseAnswer>,
    life: Life,
    views: seq<View>,
    live: set<TerminalId>,
    transcript: seq<Payload>,
    seqNo: nat,
    events: seq<Event>,
    stopped: bool,
    deleted: bool)

  datatype Error =
    SessionClosed | PromptCancelled | InvalidConfig | SessionBusy | NotActive | PermissionNotFound | StorageFailed

  datatype Reply =
    Accepted(turn: TurnId, message: Option<MessageId>) | Done | Kept(changed: bool) | Refused(error: Error)

  datatype Origin = FromUser | FromQuestionnaire | FromInside

  datatype Prompt = Prompt(origin: Origin, content: string, images: bool) {
    predicate IsUser() {
      !origin.FromInside?
    }

    predicate IsResume() {
      origin.FromInside? && content == "" && !images
    }
  }

  /** What the world answers while a prompt is handled, and the ids made for it. */
  datatype PromptWorld = PromptWorld(
    imagesSupported: bool,
    deadlineSaved: bool,
    contextSaved: bool,
    recorded: bool,
    steerOpen: bool,
    title: Option<string>,
    usageChanged: bool,
    turn: TurnId,
    userMessage: MessageId,
    message: MessageId,
    thought: MessageId)

  datatype Outcome = Completed | Cancelled | Failed

  datatype Message =
    // requests
    | AskPrompt(prompt: Prompt, world: PromptWorld)
    | AskCancel(expected: Option<TurnId>)
    | AskCompact(id: nat, normalized: bool, saved: bool, usageChanged: bool, recorded: bool)
    | AskKeep(saved: bool)
    | AskUnload(reply: nat, saved: bool)
    | AskRespond(request: RequestId, allowed: bool)
    | HandlesDropped
    // events
    | Streamed(turn: TurnId, isReasoning: bool, delta: string)
    | StepEnded(turn: TurnId, interrupted: bool, content: string, message: MessageId, thought: MessageId, recorded: bool)
    | ToolChanged(turn: TurnId, call: ToolCall, recorded: bool)
    | ToolsInterrupted(turn: TurnId, status: string, recordedFlags: seq<bool>)
    | ToolDone(turn: TurnId, toolCall: string, recorded: bool)
    | Observed(turn: TurnId, telemetry: Telemetry, recorded: bool)
    | TurnDone(turn: TurnId, outcome: Outcome, now: nat, saved: bool)
    | CompactionDone(id: nat, succeeded: bool, usageChanged: bool, recorded: bool, saved: bool)
    | PermissionAsked(turn: TurnId, request: RequestId)
    | TimerFired(now: nat)
    // set, set_config, set_workspace, notifications, todo, questionnaires, titles, context checkpoints
    | Housekeeping(payloads: seq<Payload>)

  function Init(life: Life, transcript: seq<Payload>): Session {
    Session(Idle, None, None, Gate(None, []), None, [], life.(timer := life.deleteAfter),
            [], {}, transcript, 0, [], false, false)
  }

  // ---------------------------------------------------------------- broadcasting

  function Broadcast(s: Session, p: Payload): Session {
    s.(seqNo := s.seqNo + 1, events := s.events + [Event(s.seqNo + 1, p)])
  }

  /** record_event: nothing is broadcast that the transcript did not take. */
  function Record(s: Session, p: Payload, saved: bool): Session {
    if saved then Broadcast(s.(transcript := s.transcript + [p]), p) else s
  }

  function Note(s: Session, changed: bool, entry: string): Session {
    if changed then Broadcast(s, Setting(entry)) else s
  }

  /** What `run` cleans up after its loop. */
  function Halt(s: Session): Session {
    s.(active := None, compaction := None, gate := s.gate.Reject(SessionWasClosed),
       life := s.life.(timer := None), stopped := true)
  }

  predicate IsActive(s: Session, turn: TurnId) {
    s.active.Some? && s.active.value.id == turn
  }

  // ---------------------------------------------------------------- requests

  function PromptRefusal(s: Session, p: Prompt, w: PromptWorld): Option<Reply> {
    if s.phase.ClosingDown? then Some(Refused(SessionClosed))
    else if p.IsResume() && s.active.Some? then Some(Accepted(s.active.value.id, None))
    else if s.phase.Cancelling? then Some(Refused(PromptCancelled))
    else if p.IsUser() && s.life.ephemeral && s.life.completed then Some(Refused(InvalidConfig))
    else if p.images && !w.imagesSupported then Some(Refused(InvalidConfig))
    else if s.compaction.Some? then Some(Refused(SessionBusy))
    else None
  }

  function UserMessage(p: Prompt, w: PromptWorld): Option<MessageId> {
    if p.IsUser() then Some(w.userMessage) else None
  }

  /** Append to the running turn's queue. A closed queue refuses after the prompt was recorded. */
  function SteerTurn(s: Session, p: Prompt, w: PromptWorld): (Session, Reply)
    requires s.active.Some?
  {
    var turn := s.active.value;
    if p.IsUser() && !w.recorded then (s, Refused(StorageFailed))
    else
      var s1 := if p.IsUser() then Record(s, UserPromptSubmitted(w.userMessage, turn.id, p.content), true) else s;
      if !w.steerOpen then (s1, Refused(SessionClosed))
      else (s1.(active := Some(turn.(steered := turn.steered + [Steer(p.IsUser(), p.content)]))),
            Accepted(turn.id, UserMessage(p, w)))
  }

  function NewTurn(w: PromptWorld): ActiveTurn {
    ActiveTurn(w.turn, false, "", "", 1, 0, w.message, w.thought, [], [])
  }

  function StartTurn(s: Session, p: Prompt, w: PromptWorld): (Session, Reply) {
    if !w.contextSaved then (s, Refused(StorageFailed))
    else if p.IsUser() && !w.recorded then (s, Refused(StorageFailed))
    else
      var s1 := if p.IsUser() then Record(s, UserPromptSubmitted(w.userMessage, w.turn, p.content), true) else s;
      var s2 := Note(s1, p.IsUser() && w.title.Some?, "title");
      var s3 := Note(s2, w.usageChanged, "usage");
      (Broadcast(s3.(active := Some(NewTurn(w)), phase := Running), TurnStarted(w.turn)),
       Accepted(w.turn, UserMessage(p, w)))
  }

  function HandlePrompt(s: Session, p: Prompt, w: PromptWorld): (Session, Reply) {
    var refusal := PromptRefusal(s, p, w);
    if refusal.Some? then (s, refusal.value)
    else
      var clears := s.life.ephemeral && s.life.deleteAfter.Some?;
      var s1 := if clears then s.(life := s.life.(deleteAfter := None, timer := None)) else s;
      if clears && !w.deadlineSaved then (s1, Refused(StorageFailed))
      else if s1.active.Some? then SteerTurn(s1, p, w)
      else StartTurn(s1, p, w)
  }

  function HandleCancel(s: Session, expected: Option<TurnId>): (Session, Reply) {
    if s.active.Some? && (expected.None? || expected.value == s.active.value.id) then
      (s.(active := Some(s.active.value.(cancelled := true)), phase := Cancelling, gate := s.gate.Reject(TurnWasCancelled)),
       Done)
    else if s.active.None? && s.compaction.Some? && expected.None? then
      (s.(compaction := Some(s.compaction.value.(cancelled := true)), phase := Cancelling,
          gate := s.gate.Reject(TurnWasCancelled)),
       Done)
    else (s, Refused(NotActive))
  }

  function HandleCompact(s: Session, m: Message): (Session, Reply)
    requires m.AskCompact?
  {
    if !s.phase.Idle? then (s, Refused(SessionBusy))
    else if !m.normalized then (s, Refused(InvalidConfig))
    else if !m.saved then (s, Refused(StorageFailed))
    else
      var s1 := Note(s, m.usageChanged, "usage");
      var s2 := s1.(compaction := Some(Compaction(m.id, false)), phase := Compacting);
      (Record(s2, Journal("compaction_started"), m.recorded), Done)
  }

  function HandleKeep(s: Session, saved: bool): (Session, Reply) {
    if !(s.life.ephemeral || s.life.deleteAfter.Some?) then (s, Kept(false))
    else if !saved then (s, Refused(StorageFailed))
    else (s.(life := s.life.(ephemeral := false, deleteAfter := None, timer := None)), Kept(true))
  }

  function AnswerClose(s: Session, close: nat, result: CloseResult): Session {
    s.(closeAnswers := s.closeAnswers + [CloseAnswer(close, result)])
  }

  /** The end of a close: the record is saved a last time and the caller told. */
  function FinishClose(s: Session, close: nat, saved: bool): Session {
    Halt(AnswerClose(s, close, if saved then Unloaded else NotSaved))
  }

  /** A close that waits goes on when nothing is in progress any more. */
  function CloseIfWaiting(s: Session, saved: bool): Session {
    if s.closing.Some? then FinishClose(s.(closing := None, phase := ClosingDown), s.closing.value, saved) else s
  }

  /** Whatever is in progress is told to stop, and the close waits for its end. */
  function ParkClose(s: Session, reply: nat): Session {
    s.(active := if s.active.Some? then Some(s.active.value.(cancelled := true)) else None,
       compaction := if s.compaction.Some? then Some(s.compaction.value.(cancelled := true)) else None,
       gate := if s.active.Some? then s.gate.Reject(SessionWasClosed) else s.gate,
       closing := Some(reply))
  }

  function HandleUnload(s: Session, reply: nat, saved: bool): (Session, Reply) {
    if s.phase.ClosingDown? then (AnswerClose(s, reply, ClosingAlready), Refused(SessionClosed))
    else
      var s1 := Broadcast(s.(phase := ClosingDown), Closing);
      if s.active.Some? || s.compaction.Some? then (ParkClose(s1, reply), Done)
      else (FinishClose(s1, reply, saved), Done)
  }

  function HandleRespond(s: Session, request: RequestId, allowed: bool): (Session, Reply) {
    if !s.gate.Answers(request) then (s, Refused(PermissionNotFound))
    else
      var turn := s.gate.pending.value.turn;
      (Broadcast(s.(gate := s.gate.Respond(request, allowed), phase := Running),
                 PermissionResolved(turn, request, allowed)),
       Done)
  }

  // ---------------------------------------------------------------- events of the turn task

  function HandleStreamed(s: Session, turn: TurnId, isReasoning: bool, delta: string): Session {
    if !IsActive(s, turn) then s
    else
      var a := s.active.value;
      if isReasoning then
        Broadcast(s.(active := Some(a.(reasoning := a.reasoning + delta, revision := a.revision + 1))),
                  ReasoningDelta(a.thought, turn, a.stepId, a.revision + 1, delta))
      else
        Broadcast(s.(active := Some(a.(response := a.response + delta, revision := a.revision + 1))),
                  AssistantDelta(a.message, turn, a.stepId, a.revision + 1, delta))
  }

  /** AssistantCompleted and AssistantInterrupted: the step advances even if the record is lost. */
  function HandleStepEnded(s: Session, m: Message): Session
    requires m.StepEnded?
  {
    if !IsActive(s, m.turn) then s
    else
      var a := s.active.value;
      var next := a.(response := "", reasoning := "", stepId := a.stepId + 1, revision := 0,
                     message := m.message, thought := m.thought);
      Record(s.(active := Some(next)),
             if m.interrupted
             then AssistantInterrupted(a.message, a.thought, m.turn, m.content)
             else AssistantCompleted(a.message, a.thought, m.turn, m.content),
             m.recorded)
  }

  predicate Terminal(status: string) {
    status in {"completed", "failed", "cancelled", "canceled"}
  }

  function FindTool(tools: seq<ToolCall>, id: string): (i: nat)
    ensures i <= |tools|
    ensures i < |tools| ==> tools[i].id == id
    ensures forall k :: 0 <= k < i ==> tools[k].id != id
  {
    if tools == [] || tools[0].id == id then 0 else 1 + FindTool(tools[1..], id)
  }

  /** project_tool_call: the tools afterwards and the payload to record, if anything changed. */
  function Project(tools: seq<ToolCall>, turn: TurnId, call: ToolCall): (seq<ToolCall>, Option<Payload>) {
    var i := FindTool(tools, call.id);
    if i == |tools| then (tools + [call], Some(ToolStarted(turn, call)))
    else
      var merged := if Terminal(tools[i].status) && !Terminal(call.status) then call.(status := tools[i].status) else call;
      if merged == tools[i] then (tools, None)
      else (tools[i := merged], Some(ToolUpdated(turn, merged)))
  }

  function HandleToolChanged(s: Session, turn: TurnId, call: ToolCall, recorded: bool): Session {
    if !IsActive(s, turn) then s
    else
      var (tools, payload) := Project(s.active.value.tools, turn, call);
      var s1 := s.(active := Some(s.active.value.(tools := tools)));
      if payload.Some? then Record(s1, payload.value, recorded) else s1
  }

  /** Every tool that had not ended is reported once more, with the interrupting status. */
  function Interrupt(s: Session, turn: TurnId, calls: seq<ToolCall>, status: string, flags: seq<bool>): Session
    decreases calls
  {
    if calls == [] then s
    else
      var saved := flags == [] || flags[0];
      var rest := if flags == [] then [] else flags[1..];
      if Terminal(calls[0].status) then Interrupt(s, turn, calls[1..], status, rest)
      else Interrupt(Record(s, ToolUpdated(turn, calls[0].(status := status)), saved), turn, calls[1..], status, rest)
  }

  function HandleToolsInterrupted(s: Session, turn: TurnId, status: string, flags: seq<bool>): Session {
    if !IsActive(s, turn) then s
    else Interrupt(s.(active := Some(s.active.value.(tools := []))), turn, s.active.value.tools, status, flags)
  }

  function WithoutTool(tools: seq<ToolCall>, id: string): seq<ToolCall> {
    if tools == [] then []
    else if tools[0].id == id then WithoutTool(tools[1..], id)
    else [tools[0]] + WithoutTool(tools[1..], id)
  }

  function HandleToolDone(s: Session, turn: TurnId, toolCall: string, recorded: bool): Session {
    if !IsActive(s, turn) then s
    else
      var a := s.active.value;
      Record(s.(active := Some(a.(tools := WithoutTool(a.tools, toolCall)))), ToolCompleted(turn, toolCall), recorded)
  }

  /** The terminals that can still be reached. */
  function LiveAfter(live: set<TerminalId>, e: Telemetry): set<TerminalId> {
    match e
    case Opened(_, id, _, _) => live + {id}
    case Exited(id, _, _) => live - {id}
    case _ => live
  }

  /** Terminal telemetry is kept even without a subscriber or an active turn. */
  function HandleObserved(s: Session, turn: TurnId, e: Telemetry, recorded: bool): Session {
    var s1 := s.(live := LiveAfter(s.live, e), views := Observe(s.views, e));
    match e
    case Opened(_, id, _, _) => Record(s1, TerminalOpened(turn, id), recorded)
    case Output(id, data) => Broadcast(s1, TerminalOutput(turn, id, data))
    case Exited(id, _, _) => Record(s1, TerminalExited(turn, id), recorded)
    case FileTouched(entry) => Record(s1, Journal(entry), recorded)
  }

  function Ending(turn: TurnId, outcome: Outcome): Payload {
    match outcome
    case Completed => TurnCompleted(turn)
    case Cancelled => TurnCancelled(turn)
    case Failed => TurnFailed(turn)
  }

  function AfterTurn(life: Life, outcome: Outcome, now: nat): Life {
    if !life.ephemeral then life
    else
      var deadline := Some(now + EPHEMERAL_GRACE_MS);
      Life(true, life.completed || outcome.Completed?, deadline, deadline)
  }

  function HandleTurnDone(s: Session, turn: TurnId, outcome: Outcome, now: nat, saved: bool): Session {
    if !IsActive(s, turn) then s
    else
      var s1 := s.(active := None, gate := s.gate.Reject(TurnWasFinished), phase := Idle,
                   life := AfterTurn(s.life, outcome, now));
      var s2 := Broadcast(s1, Ending(turn, outcome));
      CloseIfWaiting(s2, saved)
  }

  // ---------------------------------------------------------------- other events

  function CompactionNews(cancelled: bool, succeeded: bool): string {
    if cancelled then "compaction_cancelled" else if succeeded then "compaction_completed" else "compaction_failed"
  }

  function HandleCompactionDone(s: Session, m: Message): Session
    requires m.CompactionDone?
  {
    if s.compaction.None? || s.compaction.value.id != m.id then s
    else
      var s1 := Record(s.(compaction := None), Journal(CompactionNews(s.compaction.value.cancelled, m.succeeded)), m.recorded);
      var s2 := Note(s1, m.usageChanged, "usage");
      CloseIfWaiting(s2.(phase := Idle), m.saved)
  }

  function HandlePermissionAsked(s: Session, turn: TurnId, request: RequestId): Session {
    if !IsActive(s, turn) then s.(gate := s.gate.Refuse(Pending(turn, request)))
    else Broadcast(s.(gate := s.gate.Register(Pending(turn, request)), phase := WaitingPermission),
                   PermissionRequested(turn, request))
  }

  function HandleTimer(s: Session, now: nat): Session {
    if s.life.deleteAfter.None? then s.(life := s.life.(timer := None))
    else if !s.life.ephemeral || s.life.deleteAfter.value > now
    then s.(life := s.life.(timer := s.life.deleteAfter))
    else Halt(s.(phase := ClosingDown, gate := s.gate.Reject(SessionExpired), deleted := true))
  }

  function HandleHousekeeping(s: Session, payloads: seq<Payload>): Session
    decreases payloads
  {
    if payloads == [] then s
    else
      var p := payloads[0];
      var s1 := if p.Journal? then Record(s, p, true) else if p.Setting? then Broadcast(s, p) else s;
      HandleHousekeeping(s1, payloads[1..])
  }

  /** One message. A stopped actor handles none. */
  function Handle(s: Session, m: Message): (Session, Reply) {
    if s.stopped then (s, Refused(SessionClosed))
    else match m
      case AskPrompt(p, w) => HandlePrompt(s, p, w)
      case AskCancel(expected) => HandleCancel(s, expected)
      case AskCompact(_, _, _, _, _) => HandleCompact(s, m)
      case AskKeep(saved) => HandleKeep(s, saved)
      case AskUnload(reply, saved) => HandleUnload(s, reply, saved)
      case AskRespond(request, allowed) => HandleRespond(s, request, allowed)
      case HandlesDropped => (Halt(s), Done)
      case Streamed(turn, isReasoning, delta) => (HandleStreamed(s, turn, isReasoning, delta), Done)
      case StepEnded(_, _, _, _, _, _) => (HandleStepEnded(s, m), Done)
      case ToolChanged(turn, call, recorded) => (HandleToolChanged(s, turn, call, recorded), Done)
      case ToolsInterrupted(turn, status, flags) => (HandleToolsInterrupted(s, turn, status, flags), Done)
      case ToolDone(turn, toolCall, recorded) => (HandleToolDone(s, turn, toolCall, recorded), Done)
      case Observed(turn, e, recorded) => (HandleObserved(s, turn, e, recorded), Done)
      case TurnDone(turn, outcome, now, saved) => (HandleTurnDone(s, turn, outcome, now, saved), Done)
      case CompactionDone(_, _, _, _, _) => (HandleCompactionDone(s, m), Done)
      case PermissionAsked(turn, request) => (HandlePermissionAsked(s, turn, request), Done)
      case TimerFired(now) => (HandleTimer(s, now), Done)
      case Housekeeping(payloads) => (HandleHousekeeping(s, payloads), Done)
  }

  // ---------------------------------------------------------------- snapshots

  /** What a subscriber is given: the state at the watermark `seqNo`. */
  datatype Snapshot = Snapshot(
    step: Option<Step>,
    transcript: seq<Payload>,
    cursor: nat,
    tools: seq<ToolCall>,
    pending: Option<Pending>,
    views: seq<View>,
    seqNo: nat)

  function StepOf(active: Option<ActiveTurn>): Option<Step> {
    if active.None? then None
    else
      var a := active.value;
      Some(Step(a.id, a.stepId, a.revision, Some(a.message), Some(a.thought), a.reasoning, a.response))
  }

  /** Subscribe: a client that already holds a transcript prefix is sent only the rest. */
  function Subscribe(s: Session, cursor: Option<nat>): Snapshot {
    var skip := if cursor.Some? then Min(cursor.value, |s.transcript|) else 0;
    var tools := if s.active.Some? then s.active.value.tools else [];
    Snapshot(StepOf(s.active), s.transcript[skip..], |s.transcript|, tools, s.gate.pending, s.views, s.seqNo)
  }
}
