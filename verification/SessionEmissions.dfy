/**
 What each message makes the actor broadcast, as a list of payloads, and the one structural fact the
 stream theorems rest on: handling a message appends exactly that list, numbered on, to the broadcast,
 and the recorded part of it to the transcript.
 */
module SessionEmissions {
  import opened Common
  import opened Events
  import opened Permission
  import TerminalCache
  import opened SessionActor
  import opened SessionRuns

  function When(sent: bool, p: Payload): seq<Payload> {
    if sent then [p] else []
  }

  function RecordedOnly(ps: seq<Payload>): seq<Payload> {
    if ps == [] then []
    else RecordedOnly(ps[..|ps| - 1]) + When(IsRecorded(ps[|ps| - 1]), ps[|ps| - 1])
  }

  /** The events that carry the payloads, numbered from `last + 1`. */
  function NumberFrom(last: nat, ps: seq<Payload>): (events: seq<Event>)
    ensures |events| == |ps|
  {
    if ps == [] then [] else NumberFrom(last, ps[..|ps| - 1]) + [Event(last + |ps|, ps[|ps| - 1])]
  }

  /** The prompt gets past every refusal and every failing save, and no turn is active. */
  predicate StartsTurn(s: Session, p: Prompt, w: PromptWorld) {
    s.active.None? && HandlePrompt(s, p, w).1.Accepted?
  }

  function Interruptions(turn: TurnId, calls: seq<ToolCall>, status: string, flags: seq<bool>): seq<Payload>
    decreases calls
  {
    if calls == [] then []
    else
      var saved := flags == [] || flags[0];
      var rest := if flags == [] then [] else flags[1..];
      When(!Terminal(calls[0].status) && saved, ToolUpdated(turn, calls[0].(status := status)))
      + Interruptions(turn, calls[1..], status, rest)
  }

  function Housekept(payloads: seq<Payload>): seq<Payload> {
    if payloads == [] then []
    else When(payloads[0].Journal? || payloads[0].Setting?, payloads[0]) + Housekept(payloads[1..])
  }

  function TelemetryNews(turn: TurnId, e: TerminalCache.Telemetry): Payload {
    match e
    case Opened(_, id, _, _) => TerminalOpened(turn, id)
    case Output(id, data) => TerminalOutput(turn, id, data)
    case Exited(id, _, _) => TerminalExited(turn, id)
    case FileTouched(entry) => Journal(entry)
  }

  function DeltaOf(a: ActiveTurn, isReasoning: bool, delta: string): Payload {
    if isReasoning then ReasoningDelta(a.thought, a.id, a.stepId, a.revision + 1, delta)
    else AssistantDelta(a.message, a.id, a.stepId, a.revision + 1, delta)
  }

  function StepNews(a: ActiveTurn, interrupted: bool, content: string): Payload {
    if interrupted then AssistantInterrupted(a.message, a.thought, a.id, content)
    else AssistantCompleted(a.message, a.thought, a.id, content)
  }

  /** The news of a prompt that starts a turn, before the start itself. */
  function Preamble(p: Prompt, w: PromptWorld): seq<Payload> {
    When(p.IsUser(), UserPromptSubmitted(w.userMessage, w.turn, p.content))
    + When(p.IsUser() && w.title.Some?, Setting("title"))
    + When(w.usageChanged, Setting("usage"))
  }

  function PromptNews(s: Session, p: Prompt, w: PromptWorld): seq<Payload> {
    if PromptRefusal(s, p, w).Some? || (s.life.ephemeral && s.life.deleteAfter.Some? && !w.deadlineSaved) then []
    else if s.active.Some? then
      When(p.IsUser() && w.recorded, UserPromptSubmitted(w.userMessage, s.active.value.id, p.content))
    else if !w.contextSaved || (p.IsUser() && !w.recorded) then []
    else Preamble(p, w) + [TurnStarted(w.turn)]
  }

  function Emitted(s: Session, m: Message): seq<Payload> {
    match m
    case AskPrompt(p, w) => PromptNews(s, p, w)
    case AskCompact(_, normalized, saved, usageChanged, recorded) =>
      if s.phase.Idle? && normalized && saved
      then When(usageChanged, Setting("usage")) + When(recorded, Journal("compaction_started")) else []
    case AskUnload(_, _) => When(!s.phase.ClosingDown?, Closing)
    case AskRespond(request, allowed) =>
      if s.gate.Answers(request) then [PermissionResolved(s.gate.pending.value.turn, request, allowed)] else []
    case Streamed(turn, isReasoning, delta) =>
      if IsActive(s, turn) then [DeltaOf(s.active.value, isReasoning, delta)] else []
    case StepEnded(turn, interrupted, content, _, _, recorded) =>
      if IsActive(s, turn) && recorded then [StepNews(s.active.value, interrupted, content)] else []
    case ToolChanged(turn, call, recorded) =>
      if IsActive(s, turn) && recorded && Project(s.active.value.tools, turn, call).1.Some?
      then [Project(s.active.value.tools, turn, call).1.value] else []
    case ToolsInterrupted(turn, status, flags) =>
      if IsActive(s, turn) then Interruptions(turn, s.active.value.tools, status, flags) else []
    case ToolDone(turn, toolCall, recorded) => When(IsActive(s, turn) && recorded, ToolCompleted(turn, toolCall))
    case Observed(turn, e, recorded) => When(e.Output? || recorded, TelemetryNews(turn, e))
    case TurnDone(turn, outcome, _, _) => When(IsActive(s, turn), Ending(turn, outcome))
    case CompactionDone(id, succeeded, usageChanged, recorded, _) =>
      if s.compaction.Some? && s.compaction.value.id == id
      then When(recorded, Journal(CompactionNews(s.compaction.value.cancelled, succeeded))) + When(usageChanged, Setting("usage"))
      else []
    case PermissionAsked(turn, request) => When(IsActive(s, turn), PermissionRequested(turn, request))
    case Housekeeping(payloads) => Housekept(payloads)
    case _ => []
  }

  // ---------------------------------------------------------------- sending lists of payloads

  ghost predicate Sends(s: Session, s': Session, ps: seq<Payload>) {
    && s'.events == s.events + NumberFrom(s.seqNo, ps)
    && s'.seqNo == s.seqNo + |ps|
    && s'.transcript == s.transcript + RecordedOnly(ps)
  }

  lemma {:induction false} NumberAppend(last: nat, a: seq<Payload>, b: seq<Payload>)
    ensures NumberFrom(last, a + b) == NumberFrom(last, a) + NumberFrom(last + |a|, b)
    ensures RecordedOnly(a + b) == RecordedOnly(a) + RecordedOnly(b)
    decreases |b|
  {
    if b == [] {
      assert a + b == a;
    } else {
      NumberAppend(last, a, b[..|b| - 1]);
      assert (a + b)[..|a + b| - 1] == a + b[..|b| - 1];
    }
  }

  lemma SendNothing(s: Session, s': Session)
    requires s'.events == s.events && s'.seqNo == s.seqNo && s'.transcript == s.transcript
    ensures Sends(s, s', [])
  {
  }

  lemma SendWhen(s: Session, s': Session, sent: bool, p: Payload)
    requires s'.events == if sent then s.events + [Event(s.seqNo + 1, p)] else s.events
    requires s'.seqNo == if sent then s.seqNo + 1 else s.seqNo
    requires s'.transcript == if sent && IsRecorded(p) then s.transcript + [p] else s.transcript
    ensures Sends(s, s', When(sent, p))
  {
  }

  lemma SendMore(s: Session, s': Session, ps: seq<Payload>, s'': Session, qs: seq<Payload>)
    requires Sends(s, s', ps) && Sends(s', s'', qs)
    ensures Sends(s, s'', ps + qs)
  {
    NumberAppend(s.seqNo, ps, qs);
  }

  lemma NoteSends(s: Session, changed: bool, entry: string)
    ensures Sends(s, Note(s, changed, entry), When(changed, Setting(entry)))
  {
    SendWhen(s, Note(s, changed, entry), changed, Setting(entry));
  }

  lemma PreambleSends(s: Session, p: Prompt, w: PromptWorld) returns (s3: Session)
    ensures Sends(s, s3, Preamble(p, w))
    ensures s3 == Note(Note(if p.IsUser() then Record(s, UserPromptSubmitted(w.userMessage, w.turn, p.content), true) else s,
                            p.IsUser() && w.title.Some?, "title"),
                       w.usageChanged, "usage")
  {
    var submitted := UserPromptSubmitted(w.userMessage, w.turn, p.content);
    var s1 := if p.IsUser() then Record(s, submitted, true) else s;
    SendWhen(s, s1, p.IsUser(), submitted);
    var s2 := Note(s1, p.IsUser() && w.title.Some?, "title");
    NoteSends(s1, p.IsUser() && w.title.Some?, "title");
    SendMore(s, s1, When(p.IsUser(), submitted), s2, When(p.IsUser() && w.title.Some?, Setting("title")));
    s3 := Note(s2, w.usageChanged, "usage");
    NoteSends(s2, w.usageChanged, "usage");
    SendMore(s, s2, When(p.IsUser(), submitted) + When(p.IsUser() && w.title.Some?, Setting("title")),
             s3, When(w.usageChanged, Setting("usage")));
  }

  lemma StartSends(s: Session, p: Prompt, w: PromptWorld) returns (s3: Session)
    requires w.contextSaved && (p.IsUser() ==> w.recorded)
    ensures Sends(s, s3, Preamble(p, w)) && Sends(s3, StartTurn(s, p, w).0, [TurnStarted(w.turn)])
  {
    s3 := PreambleSends(s, p, w);
    SendWhen(s3, StartTurn(s, p, w).0, true, TurnStarted(w.turn));
  }

  lemma SteerSends(s: Session, p: Prompt, w: PromptWorld)
    requires s.active.Some?
    ensures Sends(s, SteerTurn(s, p, w).0,
                  When(p.IsUser() && w.recorded, UserPromptSubmitted(w.userMessage, s.active.value.id, p.content)))
  {
    SendWhen(s, SteerTurn(s, p, w).0, p.IsUser() && w.recorded,
             UserPromptSubmitted(w.userMessage, s.active.value.id, p.content));
  }

  lemma {:induction false} PromptSends(s: Session, p: Prompt, w: PromptWorld)
    ensures Sends(s, HandlePrompt(s, p, w).0, PromptNews(s, p, w))
  {
    var clears := s.life.ephemeral && s.life.deleteAfter.Some?;
    var s1 := if clears then s.(life := s.life.(deleteAfter := None, timer := None)) else s;
    var s' := HandlePrompt(s, p, w).0;
    if PromptRefusal(s, p, w).Some? || (clears && !w.deadlineSaved) {
      SendNothing(s, s');
    } else if s.active.Some? {
      SteerSends(s1, p, w);
    } else if !w.contextSaved || (p.IsUser() && !w.recorded) {
      SendNothing(s, s');
    } else {
      var s3 := StartSends(s1, p, w);
      SendMore(s1, s3, Preamble(p, w), s', [TurnStarted(w.turn)]);
    }
  }

  /** Without an active turn a prompt either starts one or broadcasts nothing. */
  lemma StartOrSilence(s: Session, p: Prompt, w: PromptWorld)
    requires s.active.None?
    ensures !StartsTurn(s, p, w) ==> PromptNews(s, p, w) == []
    ensures StartsTurn(s, p, w) ==>
              && PromptRefusal(s, p, w).None?
              && w.contextSaved && (p.IsUser() ==> w.recorded)
              && HandlePrompt(s, p, w).0.active == Some(NewTurn(w))
              && !HandlePrompt(s, p, w).0.stopped == !s.stopped
  {
  }

  lemma CompactSends(s: Session, m: Message)
    requires m.AskCompact? && !s.stopped
    ensures Sends(s, Handle(s, m).0, Emitted(s, m))
  {
    var s' := Handle(s, m).0;
    if s.phase.Idle? && m.normalized && m.saved {
      var s1 := Note(s, m.usageChanged, "usage");
      NoteSends(s, m.usageChanged, "usage");
      SendWhen(s1, s', m.recorded, Journal("compaction_started"));
      SendMore(s, s1, When(m.usageChanged, Setting("usage")), s', When(m.recorded, Journal("compaction_started")));
    } else {
      SendNothing(s, s');
    }
  }

  lemma CloseSendsNothing(s: Session, saved: bool)
    ensures var s' := CloseIfWaiting(s, saved);
            s'.events == s.events && s'.seqNo == s.seqNo && s'.transcript == s.transcript
  {
  }

  lemma ResultSends(s: Session, news: Payload, recorded: bool, usageChanged: bool)
    requires IsRecorded(news)
    ensures Sends(s, Note(Record(s, news, recorded), usageChanged, "usage"),
                  When(recorded, news) + When(usageChanged, Setting("usage")))
  {
    var s1 := Record(s, news, recorded);
    SendWhen(s, s1, recorded, news);
    NoteSends(s1, usageChanged, "usage");
    SendMore(s, s1, When(recorded, news), Note(s1, usageChanged, "usage"), When(usageChanged, Setting("usage")));
  }

  lemma FreedSends(s: Session, m: Message)
    requires m.CompactionDone? && s.compaction.Some? && s.compaction.value.id == m.id
    ensures Sends(s, HandleCompactionDone(s, m),
                  When(m.recorded, Journal(CompactionNews(s.compaction.value.cancelled, m.succeeded)))
                  + When(m.usageChanged, Setting("usage")))
  {
    var news := Journal(CompactionNews(s.compaction.value.cancelled, m.succeeded));
    var free := s.(compaction := None);
    ResultSends(free, news, m.recorded, m.usageChanged);
    CloseSendsNothing(Note(Record(free, news, m.recorded), m.usageChanged, "usage").(phase := Idle), m.saved);
  }

  lemma CompactionDoneSends(s: Session, m: Message)
    requires m.CompactionDone? && !s.stopped
    ensures Sends(s, Handle(s, m).0, Emitted(s, m))
  {
    if s.compaction.Some? && s.compaction.value.id == m.id {
      FreedSends(s, m);
    } else {
      SendNothing(s, s);
    }
  }

  lemma {:induction false} InterruptSends(s: Session, turn: TurnId, calls: seq<ToolCall>, status: string, flags: seq<bool>)
    ensures Sends(s, Interrupt(s, turn, calls, status, flags), Interruptions(turn, calls, status, flags))
    decreases calls
  {
    var s' := Interrupt(s, turn, calls, status, flags);
    if calls == [] {
      SendNothing(s, s');
    } else {
      var saved := flags == [] || flags[0];
      var rest := if flags == [] then [] else flags[1..];
      var p := ToolUpdated(turn, calls[0].(status := status));
      var sent := !Terminal(calls[0].status) && saved;
      var s1 := Record(s, p, sent);
      SendWhen(s, s1, sent, p);
      InterruptSends(s1, turn, calls[1..], status, rest);
      SendMore(s, s1, When(sent, p), s', Interruptions(turn, calls[1..], status, rest));
    }
  }

  lemma {:induction false} HousekeepingSends(s: Session, payloads: seq<Payload>)
    ensures Sends(s, HandleHousekeeping(s, payloads), Housekept(payloads))
    decreases payloads
  {
    var s' := HandleHousekeeping(s, payloads);
    if payloads == [] {
      SendNothing(s, s');
    } else {
      var p := payloads[0];
      var s1 := if p.Journal? then Record(s, p, true) else if p.Setting? then Broadcast(s, p) else s;
      SendWhen(s, s1, p.Journal? || p.Setting?, p);
      HousekeepingSends(s1, payloads[1..]);
      SendMore(s, s1, When(p.Journal? || p.Setting?, p), s', Housekept(payloads[1..]));
    }
  }

  lemma RequestSends(s: Session, m: Message)
    requires m.AskCancel? || m.AskKeep? || m.AskUnload? || m.AskRespond? || m.HandlesDropped?
    requires !s.stopped
    ensures Sends(s, Handle(s, m).0, Emitted(s, m))
  {
    var s' := Handle(s, m).0;
    match m
    case AskUnload(_, _) => SendWhen(s, s', !s.phase.ClosingDown?, Closing);
    case AskRespond(request, allowed) =>
      if s.gate.Answers(request) {
        SendWhen(s, s', true, PermissionResolved(s.gate.pending.value.turn, request, allowed));
      } else {
        SendNothing(s, s');
      }
    case _ => SendNothing(s, s');
  }

  lemma StepSends(s: Session, m: Message)
    requires m.Streamed? || m.StepEnded? || m.TurnDone?
    requires !s.stopped
    ensures Sends(s, Handle(s, m).0, Emitted(s, m))
  {
    var s' := Handle(s, m).0;
    if !IsActive(s, m.turn) {
      SendNothing(s, s');
    } else {
      match m
      case Streamed(_, isReasoning, delta) => SendWhen(s, s', true, DeltaOf(s.active.value, isReasoning, delta));
      case StepEnded(_, interrupted, content, _, _, recorded) =>
        SendWhen(s, s', recorded, StepNews(s.active.value, interrupted, content));
      case TurnDone(turn, outcome, _, _) => SendWhen(s, s', true, Ending(turn, outcome));
    }
  }

  lemma ToolSends(s: Session, m: Message)
    requires m.ToolChanged? || m.ToolDone?
    requires !s.stopped
    ensures Sends(s, Handle(s, m).0, Emitted(s, m))
  {
    var s' := Handle(s, m).0;
    match m
    case ToolChanged(turn, call, recorded) =>
      if IsActive(s, turn) && recorded && Project(s.active.value.tools, turn, call).1.Some? {
        SendWhen(s, s', true, Project(s.active.value.tools, turn, call).1.value);
      } else {
        SendNothing(s, s');
      }
    case ToolDone(turn, toolCall, recorded) =>
      SendWhen(s, s', IsActive(s, turn) && recorded, ToolCompleted(turn, toolCall));
  }

  lemma TelemetrySends(s: Session, m: Message)
    requires m.Observed? && !s.stopped
    ensures Sends(s, Handle(s, m).0, Emitted(s, m))
  {
    SendWhen(s, Handle(s, m).0, m.telemetry.Output? || m.recorded, TelemetryNews(m.turn, m.telemetry));
  }

  lemma EventSends(s: Session, m: Message)
    requires (m.PermissionAsked? || m.TimerFired?) && !s.stopped
    ensures Sends(s, Handle(s, m).0, Emitted(s, m))
  {
    var s' := Handle(s, m).0;
    match m
    case PermissionAsked(turn, request) =>
      SendWhen(s, s', IsActive(s, turn), PermissionRequested(turn, request));
    case TimerFired(_) => SendNothing(s, s');
  }

  /** Handling a message appends what it emits to the broadcast and the recorded part to the transcript. */
  lemma {:induction false} HandleSends(s: Session, m: Message)
    requires !s.stopped
    ensures Sends(s, Handle(s, m).0, Emitted(s, m))
  {
    match m
    case AskPrompt(p, w) => PromptSends(s, p, w);
    case AskCompact(_, _, _, _, _) => CompactSends(s, m);
    case CompactionDone(_, _, _, _, _) => CompactionDoneSends(s, m);
    case ToolsInterrupted(turn, status, flags) =>
      if IsActive(s, turn) {
        InterruptSends(s.(active := Some(s.active.value.(tools := []))), turn, s.active.value.tools, status, flags);
      } else {
        SendNothing(s, s);
      }
    case Housekeeping(payloads) => HousekeepingSends(s, payloads);
    case Streamed(_, _, _) => StepSends(s, m);
    case StepEnded(_, _, _, _, _, _) => StepSends(s, m);
    case TurnDone(_, _, _, _) => StepSends(s, m);
    case ToolChanged(_, _, _) => ToolSends(s, m);
    case ToolDone(_, _, _) => ToolSends(s, m);
    case Observed(_, _, _) => TelemetrySends(s, m);
    case PermissionAsked(_, _) => EventSends(s, m);
    case TimerFired(_) => EventSends(s, m);
    case _ => RequestSends(s, m);
  }

  // ---------------------------------------------------------------- the content of the lists

  /** Payloads that change no step. */
  predicate Quiet(p: Payload) {
    !IsDelta(p) && !p.StepSnapshot? && !p.TurnStarted? && !p.AssistantCompleted? && !p.AssistantInterrupted? && !IsTurnEnd(p)
  }

  ghost predicate AllQuiet(ps: seq<Payload>) {
    forall p :: p in ps ==> Quiet(p)
  }

  /** What a prompt that starts a turn broadcasts: quiet news, then the start. */
  lemma {:induction false} StartNews(s: Session, m: Message)
    requires m.AskPrompt? && StartsTurn(s, m.prompt, m.world)
    ensures Emitted(s, m) == Preamble(m.prompt, m.world) + [TurnStarted(m.world.turn)]
    ensures AllQuiet(Preamble(m.prompt, m.world))
    ensures Handle(s, m).0.active == Some(NewTurn(m.world)) || s.stopped
    ensures s.active.None?
  {
    StartOrSilence(s, m.prompt, m.world);
  }

  lemma {:induction false} InterruptionsAreTools(turn: TurnId, calls: seq<ToolCall>, status: string, flags: seq<bool>)
    ensures forall p :: p in Interruptions(turn, calls, status, flags) ==> p.ToolUpdated?
    decreases calls
  {
    if calls != [] {
      InterruptionsAreTools(turn, calls[1..], status, if flags == [] then [] else flags[1..]);
    }
  }

  lemma {:induction false} HousekeptAreNews(payloads: seq<Payload>)
    ensures forall p :: p in Housekept(payloads) ==> p.Journal? || p.Setting?
  {
    if payloads != [] {
      HousekeptAreNews(payloads[1..]);
    }
  }

  /** Only four kinds of message can move the step. */
  predicate MovesStep(s: Session, m: Message) {
    m.Streamed? || m.StepEnded? || m.TurnDone? || (m.AskPrompt? && StartsTurn(s, m.prompt, m.world))
  }

  /** Which payloads a message can make the actor broadcast. */
  predicate MayEmit(m: Message, p: Payload) {
    match m
    case AskPrompt(_, w) => p.UserPromptSubmitted? || p.Setting? || p == TurnStarted(w.turn)
    case AskCompact(_, _, _, _, _) => p.Setting? || p.Journal?
    case AskUnload(_, _) => p.Closing?
    case AskRespond(request, _) => p.PermissionResolved? && p.request == request
    case Streamed(turn, _, _) => IsDelta(p)
    case StepEnded(_, _, _, _, _, _) => p.AssistantCompleted? || p.AssistantInterrupted?
    case ToolChanged(_, _, _) => p.ToolStarted? || p.ToolUpdated?
    case ToolsInterrupted(_, _, _) => p.ToolUpdated?
    case ToolDone(_, _, _) => p.ToolCompleted?
    case Observed(_, e, _) =>
      p.TerminalOpened? || (p.TerminalOutput? && e.Output?) || p.TerminalExited? || p.Journal?
    case TurnDone(_, _, _, _) => IsTurnEnd(p)
    case CompactionDone(_, _, _, _, _) => p.Journal? || p.Setting?
    case PermissionAsked(_, _) => p.PermissionRequested?
    case Housekeeping(_) => p.Journal? || p.Setting?
    case _ => false
  }

  lemma RequestsEmit(s: Session, m: Message)
    requires m.AskPrompt? || m.AskCompact? || m.AskUnload? || m.AskRespond?
    ensures forall p :: p in Emitted(s, m) ==> MayEmit(m, p)
  {
  }

  lemma UpdatesEmit(s: Session, m: Message)
    requires m.Streamed? || m.StepEnded? || m.ToolChanged? || m.ToolDone? || m.Observed?
    ensures forall p :: p in Emitted(s, m) ==> MayEmit(m, p)
  {
  }

  /** A message emits nothing but payloads of its kinds. */
  lemma {:induction false} EmittedKinds(s: Session, m: Message)
    ensures forall p :: p in Emitted(s, m) ==> MayEmit(m, p)
  {
    match m
    case ToolsInterrupted(turn, status, flags) =>
      if IsActive(s, turn) {
        InterruptionsAreTools(turn, s.active.value.tools, status, flags);
      }
    case Housekeeping(payloads) => HousekeptAreNews(payloads);
    case _ =>
      if m.AskPrompt? || m.AskCompact? || m.AskUnload? || m.AskRespond? {
        RequestsEmit(s, m);
      } else if m.Streamed? || m.StepEnded? || m.ToolChanged? || m.ToolDone? || m.Observed? {
        UpdatesEmit(s, m);
      }
  }

  lemma QuietKinds(m: Message, p: Payload)
    requires MayEmit(m, p) && !m.AskPrompt? && !m.Streamed? && !m.StepEnded? && !m.TurnDone?
    ensures Quiet(p) && (!m.Observed? ==> !p.TerminalOutput?)
  {
  }

  /** A prompt that starts no turn broadcasts at most itself. */
  lemma PromptIsQuiet(s: Session, p: Prompt, w: PromptWorld)
    requires !StartsTurn(s, p, w)
    ensures forall q :: q in PromptNews(s, p, w) ==> q.UserPromptSubmitted?
  {
    if s.active.None? {
      StartOrSilence(s, p, w);
    }
  }

  lemma {:induction false} OthersAreQuiet(s: Session, m: Message)
    requires !MovesStep(s, m)
    ensures AllQuiet(Emitted(s, m))
    ensures !m.Observed? ==> forall p :: p in Emitted(s, m) ==> !p.TerminalOutput?
  {
    if m.AskPrompt? {
      PromptIsQuiet(s, m.prompt, m.world);
    } else {
      EmittedKinds(s, m);
      forall p | p in Emitted(s, m) ensures Quiet(p) && (!m.Observed? ==> !p.TerminalOutput?) {
        QuietKinds(m, p);
      }
    }
  }

  lemma OthersKeepStep(s: Session, m: Message)
    requires !MovesStep(s, m) && !s.stopped
    ensures !Handle(s, m).0.stopped ==> StepOf(Handle(s, m).0.active) == StepOf(s.active)
  {
    match m
    case ToolsInterrupted(_, _, _) => KeepStep(s, m);
    case Housekeeping(payloads) => HousekeepingKeepsControl(s, payloads);
    case ToolChanged(_, _, _) => ToolsKeepStep(s, m);
    case ToolDone(_, _, _) => ToolsKeepStep(s, m);
    case Observed(_, _, _) => ToolsKeepStep(s, m);
    case _ => RequestsKeepStep(s, m);
  }

  lemma ToolsKeepStep(s: Session, m: Message)
    requires (m.ToolChanged? || m.ToolDone? || m.Observed?) && !s.stopped
    ensures StepOf(Handle(s, m).0.active) == StepOf(s.active)
  {
  }

  lemma RequestsKeepStep(s: Session, m: Message)
    requires !MovesStep(s, m) && !s.stopped
    requires !m.ToolsInterrupted? && !m.Housekeeping? && !m.ToolChanged? && !m.ToolDone? && !m.Observed?
    ensures !Handle(s, m).0.stopped ==> StepOf(Handle(s, m).0.active) == StepOf(s.active)
  {
  }

  lemma KeepStep(s: Session, m: Message)
    requires m.ToolsInterrupted? && !s.stopped
    ensures StepOf(Handle(s, m).0.active) == StepOf(s.active)
  {
    if IsActive(s, m.turn) {
      InterruptKeepsControl(s.(active := Some(s.active.value.(tools := []))), m.turn, s.active.value.tools, m.status, m.recordedFlags);
    }
  }
}
