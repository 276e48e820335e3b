/**
 The session actor as the object it is: fields updated in place by one method per request or event
 (crates/dwo-agent-service/src/session.rs, `SessionActor`). Every method is proved to take the abstract
 state exactly where the function of the same message takes it, so what SessionRuns, SessionStream and
 SessionHistory prove of `Run` holds of `Serve`.
 */
module Actor {
  import opened Common
  import opened Events
  import opened Permission
  import opened TerminalCache
  import opened SessionActor
  import opened SessionRuns

  predicate IsRequest(m: Message) {
    m.AskPrompt? || m.AskCancel? || m.AskCompact? || m.AskKeep? || m.AskUnload? || m.AskRespond? || m.HandlesDropped?
  }

  class SessionTask {
    var phase: Phase
    var active: Option<ActiveTurn>
    var activeCompaction: Option<Compaction>
    const permission: PermissionState
    var closingResponse: Option<nat>
    var closeAnswers: seq<CloseAnswer>  // everything sent to callers of unload
    var ephemeral: bool
    var completed: bool
    var deleteAfter: Option<nat>
    var expiryTimer: Option<nat>
    const terminals: TerminalViewCache
    var liveTerminals: set<TerminalId>
    var transcript: seq<Payload>
    var seqNo: nat
    var events: seq<Event>  // everything sent on the broadcast channel
    var stopped: bool
    var deleted: bool       // the repository was asked to delete the session

    ghost function Now(): Session
      reads this, permission, terminals
    {
      Session(phase, active, activeCompaction, permission.Gated(), closingResponse, closeAnswers,
              Life(ephemeral, completed, deleteAfter, expiryTimer),
              terminals.views, liveTerminals, transcript, seqNo, events, stopped, deleted)
    }

    constructor (life: Life, transcript: seq<Payload>)
      ensures Now() == Init(life, transcript)
      ensures fresh(permission) && fresh(terminals)
    {
      phase, active, activeCompaction, closingResponse := Idle, None, None, None;
      closeAnswers := [];
      ephemeral, completed, deleteAfter := life.ephemeral, life.completed, life.deleteAfter;
      permission := new PermissionState();
      terminals := new TerminalViewCache();
      liveTerminals := {};
      this.transcript := transcript;
      seqNo, events, stopped, deleted := 0, [], false, false;
      expiryTimer := life.deleteAfter;
    }

    method BroadcastEvent(p: Payload)
      modifies this`seqNo, this`events
      ensures Now() == Broadcast(old(Now()), p)
    {
      seqNo := seqNo + 1;
      events := events + [Event(seqNo, p)];
    }

    method RecordEvent(p: Payload, saved: bool) returns (ok: bool)
      modifies this`transcript, this`seqNo, this`events
      ensures ok == saved && Now() == Record(old(Now()), p, saved)
    {
      if !saved {
        return false;
      }
      transcript := transcript + [p];
      BroadcastEvent(p);
      return true;
    }

    /** What is left to do once the loop has ended. */
    method Stop()
      modifies this, permission
      ensures Now() == Halt(old(Now()))
    {
      active := None;
      activeCompaction := None;
      permission.Reject(SessionWasClosed);
      expiryTimer := None;
      stopped := true;
    }

    // -------------------------------------------------------------- requests

    /** The checks a prompt meets before it changes anything. */
    method CheckPrompt(p: Prompt, w: PromptWorld) returns (answer: Option<Reply>)
      ensures answer == PromptRefusal(Now(), p, w)
    {
      if phase == ClosingDown {
        return Some(Refused(SessionClosed));
      }
      // A resume is an empty internal prompt; it is answered before anything changes.
      if p.IsResume() && active.Some? {
        return Some(Accepted(active.value.id, None));
      }
      if phase == Cancelling {
        return Some(Refused(PromptCancelled));
      }
      if p.IsUser() && ephemeral && completed {
        return Some(Refused(InvalidConfig));
      }
      if p.images && !w.imagesSupported {
        return Some(Refused(InvalidConfig));
      }
      if activeCompaction.Some? {
        return Some(Refused(SessionBusy));
      }
      return None;
    }

    method Ask(p: Prompt, w: PromptWorld) returns (reply: Reply)
      modifies this
      ensures (Now(), reply) == HandlePrompt(old(Now()), p, w)
    {
      var answer := CheckPrompt(p, w);
      if answer.Some? {
        return answer.value;
      }
      if ephemeral && deleteAfter.Some? {
        deleteAfter := None;
        expiryTimer := None;
        if !w.deadlineSaved {
          return Refused(StorageFailed);
        }
      }
      if active.Some? {
        reply := SteerActive(p, w);
      } else {
        reply := Begin(p, w);
      }
    }

    method SteerActive(p: Prompt, w: PromptWorld) returns (reply: Reply)
      requires active.Some?
      modifies this
      ensures (Now(), reply) == SteerTurn(old(Now()), p, w)
    {
      var turn := active.value;
      var message := if p.IsUser() then Some(w.userMessage) else None;
      if p.IsUser() {
        var ok := RecordEvent(UserPromptSubmitted(w.userMessage, turn.id, p.content), w.recorded);
        if !ok {
          return Refused(StorageFailed);
        }
      }
      if !w.steerOpen {
        return Refused(SessionClosed);
      }
      active := Some(turn.(steered := turn.steered + [Steer(p.IsUser(), p.content)]));
      return Accepted(turn.id, message);
    }

    method Begin(p: Prompt, w: PromptWorld) returns (reply: Reply)
      modifies this
      ensures (Now(), reply) == StartTurn(old(Now()), p, w)
    {
      if !w.contextSaved {
        return Refused(StorageFailed);
      }
      if p.IsUser() {
        var ok := RecordEvent(UserPromptSubmitted(w.userMessage, w.turn, p.content), w.recorded);
        if !ok {
          return Refused(StorageFailed);
        }
        if w.title.Some? {
          BroadcastEvent(Setting("title"));
        }
      }
      if w.usageChanged {
        BroadcastEvent(Setting("usage"));
      }
      active := Some(ActiveTurn(w.turn, false, "", "", 1, 0, w.message, w.thought, [], []));
      phase := Running;
      BroadcastEvent(TurnStarted(w.turn));
      return Accepted(w.turn, if p.IsUser() then Some(w.userMessage) else None);
    }

    method Cancel(expected: Option<TurnId>) returns (reply: Reply)
      modifies this, permission
      ensures (Now(), reply) == HandleCancel(old(Now()), expected)
    {
      if active.Some? {
        if expected.Some? && expected.value != active.value.id {
          return Refused(NotActive);
        }
        active := Some(active.value.(cancelled := true));
      } else if activeCompaction.Some? {
        if expected.Some? {
          return Refused(NotActive);
        }
        activeCompaction := Some(activeCompaction.value.(cancelled := true));
      } else {
        return Refused(NotActive);
      }
      phase := Cancelling;
      permission.Reject(TurnWasCancelled);
      return Done;
    }

    method Compact(id: nat, normalized: bool, saved: bool, usageChanged: bool, recorded: bool) returns (reply: Reply)
      modifies this
      ensures (Now(), reply) == HandleCompact(old(Now()), AskCompact(id, normalized, saved, usageChanged, recorded))
    {
      if phase != Idle {
        return Refused(SessionBusy);
      }
      if !normalized {
        return Refused(InvalidConfig);
      }
      if !saved {
        return Refused(StorageFailed);
      }
      if usageChanged {
        BroadcastEvent(Setting("usage"));
      }
      activeCompaction := Some(Compaction(id, false));
      phase := Compacting;
      var _ := RecordEvent(Journal("compaction_started"), recorded);
      return Done;
    }

    method Keep(saved: bool) returns (reply: Reply)
      modifies this
      ensures (Now(), reply) == HandleKeep(old(Now()), saved)
    {
      var changed := ephemeral || deleteAfter.Some?;
      if changed {
        if !saved {
          return Refused(StorageFailed);
        }
        ephemeral := false;
        deleteAfter := None;
        expiryTimer := None;
      }
      return Kept(changed);
    }

    /** The response channel of a caller of unload. */
    method SendCloseAnswer(response: nat, result: CloseResult)
      modifies this`closeAnswers
      ensures Now() == AnswerClose(old(Now()), response, result)
    {
      closeAnswers := closeAnswers + [CloseAnswer(response, result)];
    }

    /** The last save, the answer, and the end of the loop. */
    method EndClose(response: nat, saved: bool)
      modifies this, permission
      ensures Now() == FinishClose(old(Now()), response, saved)
    {
      SendCloseAnswer(response, if saved then Unloaded else NotSaved);
      Stop();
    }

    /** Whatever is in progress is told to stop, and the response is kept for its end. */
    method Park(response: nat)
      modifies this, permission
      ensures Now() == ParkClose(old(Now()), response)
    {
      if active.Some? {
        active := Some(active.value.(cancelled := true));
        permission.Reject(SessionWasClosed);
      }
      if activeCompaction.Some? {
        activeCompaction := Some(activeCompaction.value.(cancelled := true));
      }
      closingResponse := Some(response);
    }

    method Unload(response: nat, saved: bool) returns (reply: Reply)
      modifies this, permission
      ensures (Now(), reply) == HandleUnload(old(Now()), response, saved)
    {
      if phase == ClosingDown {
        SendCloseAnswer(response, ClosingAlready);
        return Refused(SessionClosed);
      }
      phase := ClosingDown;
      BroadcastEvent(Closing);
      if active.Some? || activeCompaction.Some? {
        Park(response);
        return Done;
      }
      EndClose(response, saved);
      return Done;
    }

    method RespondPermission(request: RequestId, allowed: bool) returns (reply: Reply)
      modifies this, permission
      ensures (Now(), reply) == HandleRespond(old(Now()), request, allowed)
    {
      var resolved := permission.Respond(request, allowed);
      if resolved.None? {
        return Refused(PermissionNotFound);
      }
      phase := Running;
      BroadcastEvent(PermissionResolved(resolved.value.turn, request, allowed));
      return Done;
    }

    // -------------------------------------------------------------- the turn task's updates

    method OnDelta(turn: TurnId, isReasoning: bool, delta: string)
      modifies this
      ensures Now() == HandleStreamed(old(Now()), turn, isReasoning, delta)
    {
      if active.Some? && active.value.id == turn {
        var a := active.value;
        if isReasoning {
          a := a.(reasoning := a.reasoning + delta);
        } else {
          a := a.(response := a.response + delta);
        }
        a := a.(revision := a.revision + 1);
        active := Some(a);
        if isReasoning {
          BroadcastEvent(ReasoningDelta(a.thought, turn, a.stepId, a.revision, delta));
        } else {
          BroadcastEvent(AssistantDelta(a.message, turn, a.stepId, a.revision, delta));
        }
      }
    }

    method OnStepEnded(
      turn: TurnId, interrupted: bool, content: string, message: MessageId, thought: MessageId, recorded: bool)
      modifies this
      ensures Now() == HandleStepEnded(old(Now()), StepEnded(turn, interrupted, content, message, thought, recorded))
    {
      if active.None? || active.value.id != turn {
        return;
      }
      var a := active.value;
      active := Some(a.(response := "", reasoning := "", stepId := a.stepId + 1, revision := 0,
                        message := message, thought := thought));
      var news := if interrupted then AssistantInterrupted(a.message, a.thought, turn, content)
                  else AssistantCompleted(a.message, a.thought, turn, content);
      var _ := RecordEvent(news, recorded);
    }

    method FindActiveTool(tools: seq<ToolCall>, id: string) returns (index: nat)
      ensures index == FindTool(tools, id)
    {
      index := 0;
      while index < |tools| && tools[index].id != id
        invariant index <= |tools|
        invariant FindTool(tools, id) == index + FindTool(tools[index..], id)
      {
        index := index + 1;
      }
    }

    /** project_tool_call, on the tools of the active turn. */
    method ProjectToolCall(turn: TurnId, called: ToolCall) returns (payload: Option<Payload>)
      requires active.Some?
      modifies this`active
      ensures var projected := Project(old(active.value.tools), turn, called);
              active == Some(old(active.value).(tools := projected.0)) && payload == projected.1
    {
      var a := active.value;
      var call := called;
      var index := FindActiveTool(a.tools, call.id);
      if index == |a.tools| {
        active := Some(a.(tools := a.tools + [call]));
        return Some(ToolStarted(turn, call));
      }
      var current := a.tools[index];
      if Terminal(current.status) && !Terminal(call.status) {
        call := call.(status := current.status);
      }
      if current == call {
        return None;
      }
      active := Some(a.(tools := a.tools[index := call]));
      return Some(ToolUpdated(turn, call));
    }

    method OnToolChanged(turn: TurnId, call: ToolCall, recorded: bool)
      modifies this
      ensures Now() == HandleToolChanged(old(Now()), turn, call, recorded)
    {
      if active.Some? && active.value.id == turn {
        var payload := ProjectToolCall(turn, call);
        if payload.Some? {
          var _ := RecordEvent(payload.value, recorded);
        }
      }
    }

    method OnToolsInterrupted(turn: TurnId, status: string, recordedFlags: seq<bool>)
      modifies this
      ensures Now() == HandleToolsInterrupted(old(Now()), turn, status, recordedFlags)
    {
      if active.None? || active.value.id != turn {
        return;
      }
      var calls, flags := active.value.tools, recordedFlags;
      active := Some(active.value.(tools := []));
      ghost var start := Now();
      while calls != []
        invariant Interrupt(Now(), turn, calls, status, flags)
               == Interrupt(start, turn, old(active.value.tools), status, recordedFlags)
        decreases |calls|
      {
        var saved := flags == [] || flags[0];
        if !Terminal(calls[0].status) {
          var _ := RecordEvent(ToolUpdated(turn, calls[0].(status := status)), saved);
        }
        calls, flags := calls[1..], if flags == [] then [] else flags[1..];
      }
    }

    method Retain(tools: seq<ToolCall>, gone: string) returns (kept: seq<ToolCall>)
      ensures kept == WithoutTool(tools, gone)
    {
      kept := [];
      for i := 0 to |tools|
        invariant WithoutTool(tools, gone) == kept + WithoutTool(tools[i..], gone)
      {
        assert tools[i..][1..] == tools[i + 1..];
        if tools[i].id != gone {
          kept := kept + [tools[i]];
        }
      }
    }

    method OnToolDone(turn: TurnId, toolCall: string, recorded: bool)
      modifies this
      ensures Now() == HandleToolDone(old(Now()), turn, toolCall, recorded)
    {
      if active.None? || active.value.id != turn {
        return;
      }
      var kept := Retain(active.value.tools, toolCall);
      active := Some(active.value.(tools := kept));
      var _ := RecordEvent(ToolCompleted(turn, toolCall), recorded);
    }

    method OnTelemetry(turn: TurnId, e: Telemetry, recorded: bool)
      modifies this, terminals
      ensures Now() == HandleObserved(old(Now()), turn, e, recorded)
    {
      match e {
        case Opened(_, id, _, _) => liveTerminals := liveTerminals + {id};
        case Exited(id, _, _) => liveTerminals := liveTerminals - {id};
        case _ =>
      }
      terminals.ObserveEvent(e);
      match e {
        case Opened(_, id, _, _) => var _ := RecordEvent(TerminalOpened(turn, id), recorded);
        case Output(id, data) => BroadcastEvent(TerminalOutput(turn, id, data));
        case Exited(id, _, _) => var _ := RecordEvent(TerminalExited(turn, id), recorded);
        case FileTouched(entry) => var _ := RecordEvent(Journal(entry), recorded);
      }
    }

    method OnTurnDone(turn: TurnId, outcome: Outcome, now: nat, saved: bool)
      modifies this, permission
      ensures Now() == HandleTurnDone(old(Now()), turn, outcome, now, saved)
    {
      if active.None? || active.value.id != turn {
        return;
      }
      active := None;
      permission.Reject(TurnWasFinished);
      phase := Idle;
      SetGrace(outcome, now);
      match outcome {
        case Completed => BroadcastEvent(TurnCompleted(turn));
        case Cancelled => BroadcastEvent(TurnCancelled(turn));
        case Failed => BroadcastEvent(TurnFailed(turn));
      }
      CloseIfAsked(saved);
    }

    /** Answer a parked close, now that nothing is in progress any more. */
    method CloseIfAsked(saved: bool)
      modifies this, permission
      ensures Now() == CloseIfWaiting(old(Now()), saved)
    {
      var response := closingResponse;
      if response.Some? {
        closingResponse := None;
        phase := ClosingDown;
        EndClose(response.value, saved);
      }
    }

    method SetGrace(outcome: Outcome, now: nat)
      modifies this`completed, this`deleteAfter, this`expiryTimer
      ensures Now() == old(Now()).(life := AfterTurn(old(Now()).life, outcome, now))
    {
      if ephemeral {
        completed := completed || outcome == Completed;
        deleteAfter := Some(now + EPHEMERAL_GRACE_MS);
        expiryTimer := deleteAfter;
      }
    }

    // -------------------------------------------------------------- other events

    /** The news of a compaction that has ended. */
    method AnnounceCompaction(cancelled: bool, succeeded: bool, usageChanged: bool, recorded: bool)
      modifies this`transcript, this`seqNo, this`events
      ensures Now() == Note(Record(old(Now()), Journal(CompactionNews(cancelled, succeeded)), recorded),
                            usageChanged, "usage")
    {
      var entry := if cancelled then "compaction_cancelled"
                   else if succeeded then "compaction_completed"
                   else "compaction_failed";
      var _ := RecordEvent(Journal(entry), recorded);
      if usageChanged {
        BroadcastEvent(Setting("usage"));
      }
    }

    method ApplyCompactionResult(id: nat, succeeded: bool, usageChanged: bool, recorded: bool, saved: bool)
      modifies this, permission
      ensures Now() == HandleCompactionDone(old(Now()), CompactionDone(id, succeeded, usageChanged, recorded, saved))
    {
      var taken := activeCompaction;
      activeCompaction := None;
      if taken.None? {
        return;
      }
      if taken.value.id != id {
        activeCompaction := taken;
        return;
      }
      AnnounceCompaction(taken.value.cancelled, succeeded, usageChanged, recorded);
      phase := Idle;
      CloseIfAsked(saved);
    }

    method OnPermissionAsked(turn: TurnId, request: RequestId)
      modifies this, permission
      ensures Now() == HandlePermissionAsked(old(Now()), turn, request)
    {
      if active.None? || active.value.id != turn {
        permission.Refuse(Pending(turn, request));
        return;
      }
      permission.Register(Pending(turn, request));
      phase := WaitingPermission;
      BroadcastEvent(PermissionRequested(turn, request));
    }

    method Expire(now: nat)
      modifies this, permission
      ensures Now() == HandleTimer(old(Now()), now)
    {
      expiryTimer := None;
      if deleteAfter.None? {
        return;
      }
      if !ephemeral || deleteAfter.value > now {
        expiryTimer := deleteAfter;
        return;
      }
      phase := ClosingDown;
      permission.Reject(SessionExpired);
      deleted := true;
      Stop();
    }

    method KeepHouse(payloads: seq<Payload>)
      modifies this
      ensures Now() == HandleHousekeeping(old(Now()), payloads)
    {
      var rest := payloads;
      while rest != []
        invariant HandleHousekeeping(Now(), rest) == HandleHousekeeping(old(Now()), payloads)
        decreases |rest|
      {
        if rest[0].Journal? {
          var _ := RecordEvent(rest[0], true);
        } else if rest[0].Setting? {
          BroadcastEvent(rest[0]);
        }
        rest := rest[1..];
      }
    }

    method ReceiveRequest(m: Message) returns (reply: Reply)
      requires !stopped && IsRequest(m)
      modifies this, permission
      ensures (Now(), reply) == Handle(old(Now()), m)
    {
      match m {
        case AskPrompt(p, w) => reply := Ask(p, w);
        case AskCancel(expected) => reply := Cancel(expected);
        case AskCompact(id, normalized, saved, usage, recorded) => reply := Compact(id, normalized, saved, usage, recorded);
        case AskKeep(saved) => reply := Keep(saved);
        case AskUnload(response, saved) => reply := Unload(response, saved);
        case AskRespond(request, allowed) => reply := RespondPermission(request, allowed);
        case HandlesDropped => Stop(); reply := Done;
      }
    }

    method ReceiveUpdate(m: Message)
      requires !stopped && (m.Streamed? || m.StepEnded? || m.Observed?)
      modifies this, terminals
      ensures (Now(), Done) == Handle(old(Now()), m)
    {
      match m {
        case Streamed(turn, isReasoning, delta) => OnDelta(turn, isReasoning, delta);
        case StepEnded(turn, cut, content, message, thought, saved) => OnStepEnded(turn, cut, content, message, thought, saved);
        case Observed(turn, e, recorded) => OnTelemetry(turn, e, recorded);
      }
    }

    method ReceiveToolUpdate(m: Message)
      requires !stopped && (m.ToolChanged? || m.ToolsInterrupted? || m.ToolDone?)
      modifies this
      ensures (Now(), Done) == Handle(old(Now()), m)
    {
      match m {
        case ToolChanged(turn, call, recorded) => OnToolChanged(turn, call, recorded);
        case ToolsInterrupted(turn, status, flags) => OnToolsInterrupted(turn, status, flags);
        case ToolDone(turn, toolCall, recorded) => OnToolDone(turn, toolCall, recorded);
      }
    }

    method ReceiveEvent(m: Message)
      requires !stopped && !IsRequest(m) && !KeepsControl(m)
      modifies this, permission
      ensures (Now(), Done) == Handle(old(Now()), m)
    {
      match m {
        case TurnDone(turn, outcome, now, saved) => OnTurnDone(turn, outcome, now, saved);
        case CompactionDone(id, succeeded, usage, recorded, saved) =>
          ApplyCompactionResult(id, succeeded, usage, recorded, saved);
        case PermissionAsked(turn, request) => OnPermissionAsked(turn, request);
        case TimerFired(now) => Expire(now);
      }
    }

    method Receive(m: Message) returns (reply: Reply)
      requires !stopped
      modifies this, permission, terminals
      ensures (Now(), reply) == Handle(old(Now()), m)
    {
      if IsRequest(m) {
        reply := ReceiveRequest(m);
      } else if m.ToolChanged? || m.ToolsInterrupted? || m.ToolDone? {
        ReceiveToolUpdate(m);
        reply := Done;
      } else if m.Housekeeping? {
        KeepHouse(m.payloads);
        reply := Done;
      } else if KeepsControl(m) {
        ReceiveUpdate(m);
        reply := Done;
      } else {
        ReceiveEvent(m);
        reply := Done;
      }
    }

    /** The loop over the messages, in the order the actor took them. */
    method Serve(ms: seq<Message>)
      requires !stopped
      modifies this, permission, terminals
      ensures Now() == Run(old(Now()), ms)
    {
      var i := 0;
      while i < |ms| && !stopped
        invariant 0 <= i <= |ms|
        invariant Now() == Run(old(Now()), ms[..i])
      {
        var _ := Receive(ms[i]);
        assert ms[..i + 1][..i] == ms[..i];
        i := i + 1;
      }
      StoppedStays(old(Now()), ms, i);
      assert ms[..|ms|] == ms;
    }
  }

  lemma {:induction false} StoppedStays(s: Session, ms: seq<Message>, i: nat)
    requires i <= |ms| && (i < |ms| ==> Run(s, ms[..i]).stopped)
    ensures Run(s, ms) == Run(s, ms[..i])
    decreases |ms|
  {
    if i == |ms| {
      assert ms[..i] == ms;
    } else {
      var n := |ms| - 1;
      assert ms[..n][..i] == ms[..i];
      StoppedStays(s, ms[..n], i);
    }
  }
}
