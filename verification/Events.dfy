/**
 The numbered events a session actor broadcasts, and the state a client rebuilds from them
 (crates/dwo-agent-service/src/events.rs).

 A client folds three things out of the stream: the assistant step being streamed, the durable
 transcript, and the raw bytes of every terminal. `Client` and `Watch` are that fold; the modules
 Subscription and SessionStream relate it to what is delivered and to what the actor itself holds.
 */
module Events {
  import opened Common

  // Identifiers are opaque in the source (prefixed UUIDs); only equality matters.
  type TurnId = nat
  type MessageId = nat
  type RequestId = nat
  type TerminalId = seq<byte>

  /** The streamed step. `None` stands for a message id the receiving task made up itself. */
  datatype Step = Step(
    turn: TurnId,
    stepId: nat,
    revision: nat,
    messageId: Option<MessageId>,
    thoughtId: Option<MessageId>,
    reasoning: string,
    response: string)

  datatype ToolCall = ToolCall(id: string, name: string, input: string, status: string)

  /** Payloads; those of one treatment that nothing here distinguishes share a constructor. */
  datatype Payload =
    | UserPromptSubmitted(message: MessageId, turn: TurnId, content: string)
    | TurnStarted(turn: TurnId)
    | AssistantDelta(message: MessageId, turn: TurnId, stepId: nat, revision: nat, delta: string)
    | ReasoningDelta(message: MessageId, turn: TurnId, stepId: nat, revision: nat, delta: string)
    | StepSnapshot(step: Step)
    | AssistantCompleted(message: MessageId, thought: MessageId, turn: TurnId, content: string)
    | AssistantInterrupted(message: MessageId, thought: MessageId, turn: TurnId, content: string)
    | ToolStarted(turn: TurnId, call: ToolCall)
    | ToolUpdated(turn: TurnId, call: ToolCall)
    | ToolCompleted(turn: TurnId, toolCall: string)
    | TerminalOpened(turn: TurnId, terminal: TerminalId)
    | TerminalOutput(turn: TurnId, terminal: TerminalId, data: seq<byte>)
    | TerminalExited(turn: TurnId, terminal: TerminalId)
    | PermissionRequested(turn: TurnId, request: RequestId)
    | PermissionResolved(turn: TurnId, request: RequestId, allowed: bool)
    | TurnCompleted(turn: TurnId)
    | TurnCancelled(turn: TurnId)
    | TurnFailed(turn: TurnId)
    | Closing
    | Journal(entry: string)  // Notification, FileRead, FileChanged, PlanUpdated, Questionnaire*
    | Setting(entry: string)  // ConfigChanged, UsageChanged, TitleChanged, WorkspaceChanged

  datatype Event = Event(seqNo: nat, payload: Payload)

  predicate IsDelta(p: Payload) {
    p.AssistantDelta? || p.ReasoningDelta?
  }

  predicate IsTurnEnd(p: Payload) {
    p.TurnCompleted? || p.TurnCancelled? || p.TurnFailed?
  }

  /** The payloads the actor sends through `record_event`, hence writes to the transcript first. */
  predicate IsRecorded(p: Payload) {
    p.UserPromptSubmitted? || p.AssistantCompleted? || p.AssistantInterrupted? || p.ToolStarted?
    || p.ToolUpdated? || p.ToolCompleted? || p.TerminalOpened? || p.TerminalExited? || p.Journal?
  }

  function FreshStep(turn: TurnId, stepId: nat): Step {
    Step(turn, stepId, 0, None, None, "", "")
  }

  /** apply_step_delta */
  function ApplyDelta(step: Option<Step>, p: Payload): (r: Option<Step>)
    requires IsDelta(p)
    ensures r.Some? && r.value.turn == p.turn && r.value.stepId == p.stepId && r.value.revision == p.revision
  {
    var current :=
      if step.Some? && step.value.turn == p.turn && step.value.stepId == p.stepId
      then step.value
      else FreshStep(p.turn, p.stepId);
    if p.ReasoningDelta? then
      Some(current.(revision := p.revision, thoughtId := Some(p.message), reasoning := current.reasoning + p.delta))
    else
      Some(current.(revision := p.revision, messageId := Some(p.message), response := current.response + p.delta))
  }

  /** update_step_checkpoint */
  function Checkpoint(step: Option<Step>, p: Payload): Option<Step> {
    match p
    case TurnStarted(turn) => Some(FreshStep(turn, 1))
    case AssistantCompleted(_, _, turn, _) => NextStep(step, turn)
    case AssistantInterrupted(_, _, turn, _) => NextStep(step, turn)
    case TurnCompleted(turn) => EndStep(step, turn)
    case TurnCancelled(turn) => EndStep(step, turn)
    case TurnFailed(turn) => EndStep(step, turn)
    case _ => step
  }

  function NextStep(step: Option<Step>, turn: TurnId): Option<Step> {
    if step.Some? && step.value.turn == turn then Some(FreshStep(turn, step.value.stepId + 1)) else step
  }

  function EndStep(step: Option<Step>, turn: TurnId): Option<Step> {
    if step.Some? && step.value.turn == turn then None else step
  }

  /** What a reader of the stream does with one payload; a StepSnapshot replaces the step. */
  function Absorb(step: Option<Step>, p: Payload): Option<Step> {
    if IsDelta(p) then ApplyDelta(step, p)
    else if p.StepSnapshot? then Some(p.step)
    else Checkpoint(step, p)
  }

  // ---------------------------------------------------------------- the client's replica

  datatype Client = Client(step: Option<Step>, transcript: seq<Payload>, output: map<TerminalId, seq<byte>>) {
    function Bytes(id: TerminalId): seq<byte> {
      if id in output then output[id] else []
    }
  }

  function See(c: Client, p: Payload): Client {
    Client(
      Absorb(c.step, p),
      if IsRecorded(p) then c.transcript + [p] else c.transcript,
      if p.TerminalOutput? then c.output[p.terminal := c.Bytes(p.terminal) + p.data] else c.output)
  }

  function Watch(c: Client, events: seq<Event>): Client {
    if events == [] then c
    else See(Watch(c, events[..|events| - 1]), events[|events| - 1].payload)
  }

  lemma WatchMore(c: Client, events: seq<Event>, e: Event)
    ensures Watch(c, events + [e]) == See(Watch(c, events), e.payload)
  {
    assert (events + [e])[..|events|] == events;
  }

  lemma {:induction false} WatchAppend(c: Client, a: seq<Event>, b: seq<Event>)
    ensures Watch(c, a + b) == Watch(Watch(c, a), b)
  {
    if b == [] {
      assert a + b == a;
    } else {
      var last := b[|b| - 1];
      WatchAppend(c, a, b[..|b| - 1]);
      assert a + b == (a + b[..|b| - 1]) + [last];
      WatchMore(c, a + b[..|b| - 1], last);
    }
  }

  /** Sequence numbers strictly increase and all exceed `floor`. */
  ghost predicate Ascending(floor: nat, events: seq<Event>) {
    && (forall i :: 0 <= i < |events| ==> floor < events[i].seqNo)
    && (forall i, j :: 0 <= i < j < |events| ==> events[i].seqNo < events[j].seqNo)
  }

  /** The events nothing may drop: everything but streamed deltas and their summaries. */
  function Durable(events: seq<Event>): seq<Event> {
    if events == [] then []
    else
      var last := events[|events| - 1];
      var front := Durable(events[..|events| - 1]);
      if IsDelta(last.payload) || last.payload.StepSnapshot? then front else front + [last]
  }

  lemma DurableMore(events: seq<Event>, e: Event)
    ensures Durable(events + [e])
         == if IsDelta(e.payload) || e.payload.StepSnapshot? then Durable(events) else Durable(events) + [e]
  {
    assert (events + [e])[..|events|] == events;
  }
}
