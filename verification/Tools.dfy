/**
 Tool calls of a turn, as the actor keeps them and as a client that follows the broadcast shows them
 (crates/dwo-agent-service/src/events.rs, project_tool_call; session.rs, the tool events). A client files
 calls by id and starts afresh with every turn.
 */
module Tools {
  import opened Common
  import opened Events
  import opened SessionActor
  import opened SessionRuns
  import opened SessionEmissions
  import opened SessionStream
  import opened Following

  type Board = map<string, ToolCall>

  /** A client's board after one more payload. */
  function Shown(b: Board, p: Payload): Board {
    match p
    case TurnStarted(_) => map[]
    case ToolStarted(_, call) => b[call.id := call]
    case ToolUpdated(_, call) => b[call.id := call]
    case ToolCompleted(_, id) => b - {id}
    case _ => b
  }

  /** Two boards agree on one entry. */
  predicate SameEntry(b: Board, own: Board, id: string) {
    (id in b <==> id in own) && (id in b ==> b[id] == own[id])
  }

  lemma SameBoard(b: Board, own: Board)
    requires forall id :: SameEntry(b, own, id)
    ensures b == own
  {
    forall id ensures id in b <==> id in own {
      assert SameEntry(b, own, id);
    }
    forall id | id in b ensures b[id] == own[id] {
      assert SameEntry(b, own, id);
    }
  }

  // ---------------------------------------------------------------- the actor's calls

  ghost predicate Distinct(tools: seq<ToolCall>) {
    forall i, j :: 0 <= i < j < |tools| ==> tools[i].id != tools[j].id
  }

  function BoardOf(tools: seq<ToolCall>): Board {
    if tools == [] then map[] else BoardOf(tools[..|tools| - 1])[tools[|tools| - 1].id := tools[|tools| - 1]]
  }

  lemma {:induction false} BoardHolds(tools: seq<ToolCall>, i: nat)
    requires Distinct(tools) && i < |tools|
    ensures tools[i].id in BoardOf(tools) && BoardOf(tools)[tools[i].id] == tools[i]
  {
    if i < |tools| - 1 {
      BoardHolds(tools[..|tools| - 1], i);
    }
  }

  lemma {:induction false} BoardHasNoOther(tools: seq<ToolCall>, id: string)
    requires forall i :: 0 <= i < |tools| ==> tools[i].id != id
    ensures id !in BoardOf(tools)
  {
    if tools != [] {
      BoardHasNoOther(tools[..|tools| - 1], id);
    }
  }

  lemma {:induction false} BoardFinds(tools: seq<ToolCall>, id: string)
    requires Distinct(tools)
    ensures var i := FindTool(tools, id);
            && (id in BoardOf(tools) <==> i < |tools|)
            && (i < |tools| ==> BoardOf(tools)[id] == tools[i])
  {
    var i := FindTool(tools, id);
    if i < |tools| {
      BoardHolds(tools, i);
    } else {
      BoardHasNoOther(tools, id);
    }
  }

  /** A board is decided by which calls its list has. */
  lemma {:induction false} BoardAt(tools: seq<ToolCall>, id: string)
    requires Distinct(tools)
    ensures id in BoardOf(tools) ==> BoardOf(tools)[id] in tools && BoardOf(tools)[id].id == id
    ensures id !in BoardOf(tools) ==> forall c :: c in tools ==> c.id != id
  {
    BoardFinds(tools, id);
  }

  lemma {:induction false} BoardReplaced(tools: seq<ToolCall>, i: nat, call: ToolCall)
    requires Distinct(tools) && i < |tools| && tools[i].id == call.id
    ensures Distinct(tools[i := call]) && BoardOf(tools[i := call]) == BoardOf(tools)[call.id := call]
  {
    var n := |tools| - 1;
    var next := tools[i := call];
    if i < n {
      BoardReplaced(tools[..n], i, call);
      assert next[..n] == tools[..n][i := call];
    } else {
      assert next[..n] == tools[..n];
    }
  }

  lemma {:induction false} RemovedTools(tools: seq<ToolCall>, id: string)
    ensures forall c :: c in WithoutTool(tools, id) <==> c in tools && c.id != id
    ensures Distinct(tools) ==> Distinct(WithoutTool(tools, id))
  {
    if tools != [] {
      RemovedTools(tools[1..], id);
      assert forall c :: c in tools <==> c == tools[0] || c in tools[1..];
      if Distinct(tools) {
        assert Distinct(tools[1..]);
        var rest := WithoutTool(tools[1..], id);
        assert forall i :: 0 <= i < |rest| ==> rest[i] in rest;
      }
    }
  }

  lemma {:induction false} BoardWithout(tools: seq<ToolCall>, id: string)
    requires Distinct(tools)
    ensures Distinct(WithoutTool(tools, id)) && BoardOf(WithoutTool(tools, id)) == BoardOf(tools) - {id}
  {
    RemovedTools(tools, id);
    forall x ensures SameEntry(BoardOf(WithoutTool(tools, id)), BoardOf(tools) - {id}, x) {
      EntryWithout(tools, id, x);
    }
    SameBoard(BoardOf(WithoutTool(tools, id)), BoardOf(tools) - {id});
  }

  lemma {:induction false} EntryWithout(tools: seq<ToolCall>, id: string, x: string)
    requires Distinct(tools)
    ensures SameEntry(BoardOf(WithoutTool(tools, id)), BoardOf(tools) - {id}, x)
  {
    RemovedTools(tools, id);
    var less := WithoutTool(tools, id);
    BoardAt(less, x);
    BoardAt(tools, x);
    if x in BoardOf(less) {
      SameCall(tools, BoardOf(less)[x]);
    }
  }

  lemma {:induction false} SameCall(tools: seq<ToolCall>, c: ToolCall)
    requires Distinct(tools) && c in tools
    ensures c.id in BoardOf(tools) && BoardOf(tools)[c.id] == c
  {
    var i :| 0 <= i < |tools| && tools[i] == c;
    BoardHolds(tools, i);
  }

  /** A list that gains a call under a new id, or replaces the one under its id, shows that call besides the others. */
  lemma {:induction false} BoardGains(tools: seq<ToolCall>, call: ToolCall)
    requires Distinct(tools) && FindTool(tools, call.id) == |tools|
    ensures Distinct(tools + [call]) && BoardOf(tools + [call]) == BoardOf(tools)[call.id := call]
  {
    assert (tools + [call])[..|tools|] == tools;
  }

  /** What is recorded about a known call is the call that takes its place. */
  lemma {:induction false} ProjectKnown(tools: seq<ToolCall>, turn: TurnId, call: ToolCall, i: nat)
    requires i == FindTool(tools, call.id) < |tools|
    ensures var (next, payload) := Project(tools, turn, call);
            match payload
            case None => next == tools
            case Some(p) =>
              p.ToolUpdated? && p.call.id == call.id && p.call != tools[i] && next == tools[i := p.call]
  {
  }

  lemma {:induction false} ProjectKnownBoard(tools: seq<ToolCall>, turn: TurnId, call: ToolCall)
    requires Distinct(tools) && FindTool(tools, call.id) < |tools| && Project(tools, turn, call).1.Some?
    ensures var (next, payload) := Project(tools, turn, call);
            && Distinct(next) && payload.value.ToolUpdated? && payload.value.call.id == call.id
            && BoardOf(next) == BoardOf(tools)[call.id := payload.value.call] != BoardOf(tools)
  {
    var i := FindTool(tools, call.id);
    var payload := Project(tools, turn, call).1.value;
    BoardFinds(tools, call.id);
    ProjectKnown(tools, turn, call, i);
    BoardReplaced(tools, i, payload.call);
    assert BoardOf(tools)[call.id] != payload.call;
  }

  lemma {:induction false} ProjectFreshBoard(tools: seq<ToolCall>, turn: TurnId, call: ToolCall)
    requires Distinct(tools) && FindTool(tools, call.id) == |tools|
    ensures var (next, payload) := Project(tools, turn, call);
            && Distinct(next) && payload == Some(ToolStarted(turn, call))
            && BoardOf(next) == BoardOf(tools)[call.id := call] != BoardOf(tools)
  {
    BoardGains(tools, call);
    BoardFinds(tools, call.id);
  }

  /** A report of a call changes its entry, and no other, exactly when there is something to record. */
  lemma {:induction false} ProjectBoard(tools: seq<ToolCall>, turn: TurnId, call: ToolCall)
    requires Distinct(tools)
    ensures var (next, payload) := Project(tools, turn, call);
            && Distinct(next)
            && (payload.None? ==> next == tools)
            && (payload.Some? ==>
                  && Shown(BoardOf(tools), payload.value) == BoardOf(next) != BoardOf(tools)
                  && (payload.value.ToolStarted? || payload.value.ToolUpdated?)
                  && payload.value.call.id == call.id)
  {
    var i := FindTool(tools, call.id);
    if i == |tools| {
      ProjectFreshBoard(tools, turn, call);
    } else {
      ProjectKnown(tools, turn, call, i);
      if Project(tools, turn, call).1.Some? {
        ProjectKnownBoard(tools, turn, call);
      }
    }
  }

  /** What a report leaves of a call: the report itself, but that a call that has ended stays ended. */
  lemma {:induction false} ReportsAreTaken(tools: seq<ToolCall>, turn: TurnId, call: ToolCall)
    requires Distinct(tools)
    ensures var before, after := BoardOf(tools), BoardOf(Project(tools, turn, call).0);
            && call.id in after && after.Keys == before.Keys + {call.id}
            && (forall id :: id in before && id != call.id ==> after[id] == before[id])
            && after[call.id].name == call.name && after[call.id].input == call.input
            && after[call.id].status
               == if call.id in before && Terminal(before[call.id].status) && !Terminal(call.status)
                  then before[call.id].status else call.status
  {
    var i := FindTool(tools, call.id);
    BoardFinds(tools, call.id);
    if i == |tools| {
      BoardGains(tools, call);
    } else {
      var next := Project(tools, turn, call).0;
      if next != tools {
        BoardReplaced(tools, i, next[i]);
      }
    }
  }

  // ---------------------------------------------------------------- actor and client

  /** The calls of the active turn carry different ids. */
  ghost predicate OwnTools(s: Session) {
    s.active.Some? ==> Distinct(s.active.value.tools)
  }

  predicate AgreesOn(b: Board, s: Session, id: string) {
    s.active.Some? ==> SameEntry(b, BoardOf(s.active.value.tools), id)
  }

  predicate Agrees(b: Board, s: Session) {
    s.active.Some? ==> b == BoardOf(s.active.value.tools)
  }

  lemma AgreesEverywhere(b: Board, s: Session)
    ensures Agrees(b, s) <==> forall id :: AgreesOn(b, s, id)
  {
    if s.active.Some? && forall id :: AgreesOn(b, s, id) {
      forall id ensures SameEntry(b, BoardOf(s.active.value.tools), id) {
        assert AgreesOn(b, s, id);
      }
      SameBoard(b, BoardOf(s.active.value.tools));
    }
  }

  predicate MovesTools(m: Message) {
    m.ToolChanged? || m.ToolsInterrupted? || m.ToolDone?
  }

  predicate Starts(s: Session, m: Message) {
    m.AskPrompt? && StartsTurn(s, m.prompt, m.world)
  }

  /** The entries in which actor and client part: a change or a result that was not recorded, or an interruption. */
  function Parted(s: Session, m: Message): set<string> {
    match m
    case ToolChanged(turn, call, recorded) =>
      if IsActive(s, turn) && !recorded && Project(s.active.value.tools, turn, call).1.Some? then {call.id} else {}
    case ToolsInterrupted(turn, _, _) =>
      if IsActive(s, turn) then BoardOf(s.active.value.tools).Keys else {}
    case ToolDone(turn, id, recorded) =>
      if IsActive(s, turn) && !recorded && id in BoardOf(s.active.value.tools) then {id} else {}
    case _ => {}
  }

  /** The entries that a recorded change or result puts right. */
  function Mended(s: Session, m: Message): set<string> {
    match m
    case ToolChanged(turn, call, recorded) =>
      if IsActive(s, turn) && recorded && Project(s.active.value.tools, turn, call).1.Some? then {call.id} else {}
    case ToolDone(turn, id, recorded) =>
      if IsActive(s, turn) && recorded then {id} else {}
    case _ => {}
  }

  /** The entries that may be out of step after a run. A new turn starts with none. */
  function Astray(s: Session, ms: seq<Message>): set<string> {
    if ms == [] then {}
    else
      var front, m := ms[..|ms| - 1], ms[|ms| - 1];
      if Starts(Run(s, front), m) then {}
      else (Astray(s, front) - Mended(Run(s, front), m)) + Parted(Run(s, front), m)
  }

  // ---------------------------------------------------------------- one message

  lemma KindsWithoutTools(m: Message, p: Payload)
    requires MayEmit(m, p) && !MovesTools(m) && !m.AskPrompt?
    ensures !p.TurnStarted? && !p.ToolStarted? && !p.ToolUpdated? && !p.ToolCompleted?
  {
  }

  /** A message that is none of the tool events shows nothing, but for a turn's start, which clears the board. */
  lemma {:induction false} OthersShowNothing(b: Board, s: Session, m: Message)
    requires !MovesTools(m) && !s.stopped
    ensures TakeAll(Shown, b, Emitted(s, m)) == if Starts(s, m) then map[] else b
  {
    if Starts(s, m) {
      StartNews(s, m);
      TakeOne(Shown, b, Preamble(m.prompt, m.world), TurnStarted(m.world.turn));
    } else if m.AskPrompt? {
      PromptIsQuiet(s, m.prompt, m.world);
      TakeNothing(Shown, b, Emitted(s, m));
    } else {
      EmittedKinds(s, m);
      forall p | p in Emitted(s, m)
        ensures !p.TurnStarted? && !p.ToolStarted? && !p.ToolUpdated? && !p.ToolCompleted?
      {
        KindsWithoutTools(m, p);
      }
      TakeNothing(Shown, b, Emitted(s, m));
    }
  }

  /** Whatever turn is active afterwards has the calls it had, or is new and has none. */
  predicate SameTools(s: Session, s': Session) {
    s'.active.Some? ==> s.active.Some? && s'.active.value.tools == s.active.value.tools
  }

  lemma PromptTools(s: Session, p: Prompt, w: PromptWorld)
    ensures var s' := HandlePrompt(s, p, w).0;
            if StartsTurn(s, p, w) then s'.active == Some(NewTurn(w)) else SameTools(s, s')
  {
    if s.active.None? {
      StartOrSilence(s, p, w);
    }
  }

  lemma RequestTools(s: Session, m: Message)
    requires !s.stopped
    requires m.AskCancel? || m.AskCompact? || m.AskKeep? || m.AskUnload? || m.AskRespond? || m.HandlesDropped?
    ensures SameTools(s, Handle(s, m).0)
  {
  }

  lemma UpdateTools(s: Session, m: Message)
    requires !s.stopped && (m.Streamed? || m.StepEnded? || m.Observed? || m.Housekeeping?)
    ensures SameTools(s, Handle(s, m).0)
  {
    if m.Housekeeping? {
      HousekeepingKeepsControl(s, m.payloads);
    }
  }

  lemma EventTools(s: Session, m: Message)
    requires !s.stopped && (m.TurnDone? || m.CompactionDone? || m.PermissionAsked? || m.TimerFired?)
    ensures SameTools(s, Handle(s, m).0)
  {
  }

  lemma {:induction false} OthersKeepTools(s: Session, m: Message)
    requires !MovesTools(m) && !s.stopped
    ensures var s' := Handle(s, m).0;
            if Starts(s, m) then s'.active == Some(NewTurn(m.world)) else SameTools(s, s')
  {
    if m.AskPrompt? {
      PromptTools(s, m.prompt, m.world);
    } else if m.Streamed? || m.StepEnded? || m.Observed? || m.Housekeeping? {
      UpdateTools(s, m);
    } else if m.TurnDone? || m.CompactionDone? || m.PermissionAsked? || m.TimerFired? {
      EventTools(s, m);
    } else {
      RequestTools(s, m);
    }
  }

  /** The record of call i of an interruption is saved. */
  predicate SavedAt(flags: seq<bool>, i: nat) {
    i < |flags| ==> flags[i]
  }

  /** A board before and after an interruption differs in a call that was unfinished and whose record is saved. */
  predicate ToldOff(b: Board, after: Board, calls: seq<ToolCall>, status: string, flags: seq<bool>, id: string) {
    var i := FindTool(calls, id);
    if i < |calls| && !Terminal(calls[i].status) && SavedAt(flags, i) then
      id in after && after[id] == calls[i].(status := status)
    else SameEntry(after, b, id)
  }

  /** An interruption shows a call told off if it was unfinished and its record is saved, and nothing else. */
  lemma {:induction false} InterruptionShows(b: Board, turn: TurnId, calls: seq<ToolCall>, status: string,
                                            flags: seq<bool>, id: string)
    requires Distinct(calls)
    ensures ToldOff(b, TakeAll(Shown, b, Interruptions(turn, calls, status, flags)), calls, status, flags, id)
    decreases |calls|
  {
    if calls != [] {
      var rest := if flags == [] then [] else flags[1..];
      var sent := !Terminal(calls[0].status) && SavedAt(flags, 0);
      var told := ToolUpdated(turn, calls[0].(status := status));
      var b1 := TakeAll(Shown, b, When(sent, told));
      TakeMore(Shown, b, When(sent, told), Interruptions(turn, calls[1..], status, rest));
      TakeWhen(Shown, b, sent, told);
      assert Distinct(calls[1..]);
      InterruptionShows(b1, turn, calls[1..], status, rest, id);
      ToldOffMore(b, b1, TakeAll(Shown, b1, Interruptions(turn, calls[1..], status, rest)), calls, status, flags, id);
    }
  }

  lemma ToldOffMore(b: Board, b1: Board, after: Board, calls: seq<ToolCall>, status: string, flags: seq<bool>, id: string)
    requires Distinct(calls) && calls != []
    requires b1 == if !Terminal(calls[0].status) && SavedAt(flags, 0)
                   then b[calls[0].id := calls[0].(status := status)] else b
    requires ToldOff(b1, after, calls[1..], status, if flags == [] then [] else flags[1..], id)
    ensures ToldOff(b, after, calls, status, flags, id)
  {
    FindInTail(calls, flags, id);
  }

  lemma FindInTail(calls: seq<ToolCall>, flags: seq<bool>, id: string)
    requires Distinct(calls) && calls != []
    ensures Distinct(calls[1..])
    ensures if calls[0].id == id then FindTool(calls, id) == 0 && FindTool(calls[1..], id) == |calls| - 1
            else FindTool(calls, id) == 1 + FindTool(calls[1..], id)
    ensures var rest := if flags == [] then [] else flags[1..];
            forall i: nat :: SavedAt(rest, i) == SavedAt(flags, i + 1)
  {
    if calls[0].id == id {
      assert forall k :: 0 <= k < |calls[1..]| ==> calls[1..][k].id != id;
    }
  }

  /** What the tool events do to the actor's list and to the broadcast. */
  lemma {:induction false} ToolEvents(s: Session, m: Message)
    requires MovesTools(m) && !s.stopped
    ensures var s' := Handle(s, m).0;
            && s'.active.Some? == s.active.Some? && !s'.stopped
            && (s.active.Some? ==>
                  var tools := s.active.value.tools;
                  var turn := m.turn;
                  s'.active.value.tools
                  == if !IsActive(s, turn) then tools
                     else match m
                       case ToolChanged(_, call, _) => Project(tools, turn, call).0
                       case ToolsInterrupted(_, _, _) => []
                       case ToolDone(_, id, _) => WithoutTool(tools, id))
  {
    if m.ToolsInterrupted? && IsActive(s, m.turn) {
      InterruptKeepsControl(s.(active := Some(s.active.value.(tools := []))), m.turn, s.active.value.tools,
                            m.status, m.recordedFlags);
    }
  }

  lemma {:induction false} StepKeepsOwnTools(s: Session, m: Message)
    requires OwnTools(s) && !s.stopped
    ensures OwnTools(Handle(s, m).0)
  {
    if MovesTools(m) {
      ToolEvents(s, m);
      if IsActive(s, m.turn) {
        var tools := s.active.value.tools;
        if m.ToolChanged? {
          ProjectBoard(tools, m.turn, m.call);
        } else if m.ToolDone? {
          BoardWithout(tools, m.toolCall);
        }
      }
    } else {
      OthersKeepTools(s, m);
    }
  }

  lemma {:induction false} ChangeShows(b: Board, s: Session, m: Message)
    requires m.ToolChanged? && IsActive(s, m.turn)
    ensures var (next, payload) := Project(s.active.value.tools, m.turn, m.call);
            TakeAll(Shown, b, Emitted(s, m)) == if payload.Some? && m.recorded then b[m.call.id := payload.value.call] else b
  {
    var payload := Project(s.active.value.tools, m.turn, m.call).1;
    if payload.Some? && m.recorded {
      TakeWhen(Shown, b, true, payload.value);
      assert Emitted(s, m) == When(true, payload.value);
    }
  }

  lemma {:induction false} ResultShows(b: Board, s: Session, m: Message)
    requires m.ToolDone? && IsActive(s, m.turn)
    ensures TakeAll(Shown, b, Emitted(s, m)) == if m.recorded then b - {m.toolCall} else b
  {
    TakeWhen(Shown, b, m.recorded, ToolCompleted(m.turn, m.toolCall));
    assert Emitted(s, m) == When(m.recorded, ToolCompleted(m.turn, m.toolCall));
  }

  /** An entry agrees after a message if it is mended, or agreed before and is not parted, or a turn begins. */
  lemma {:induction false} StepAgreesOn(b: Board, s: Session, m: Message, id: string)
    requires OwnTools(s) && !s.stopped
    requires Starts(s, m) || id in Mended(s, m) || (AgreesOn(b, s, id) && id !in Parted(s, m))
    ensures AgreesOn(TakeAll(Shown, b, Emitted(s, m)), Handle(s, m).0, id)
  {
    if !MovesTools(m) {
      OthersShowNothing(b, s, m);
      OthersKeepTools(s, m);
    } else {
      ToolEvents(s, m);
      if IsActive(s, m.turn) {
        ToolEventAgreesOn(b, s, m, id);
      } else {
        assert Emitted(s, m) == [];
      }
    }
  }

  lemma {:induction false} ToolEventAgreesOn(b: Board, s: Session, m: Message, id: string)
    requires OwnTools(s) && !s.stopped && MovesTools(m) && IsActive(s, m.turn)
    requires id in Mended(s, m) || (AgreesOn(b, s, id) && id !in Parted(s, m))
    ensures AgreesOn(TakeAll(Shown, b, Emitted(s, m)), Handle(s, m).0, id)
  {
    ToolEvents(s, m);
    if m.ToolChanged? {
      ChangeAgreesOn(b, s, m, id);
    } else if m.ToolDone? {
      ResultAgreesOn(b, s, m, id);
    } else {
      InterruptionShows(b, m.turn, s.active.value.tools, m.status, m.recordedFlags, id);
      BoardFinds(s.active.value.tools, id);
    }
  }

  lemma {:induction false} ChangeAgreesOn(b: Board, s: Session, m: Message, id: string)
    requires m.ToolChanged? && IsActive(s, m.turn) && OwnTools(s)
    requires id in Mended(s, m) || (AgreesOn(b, s, id) && id !in Parted(s, m))
    ensures SameEntry(TakeAll(Shown, b, Emitted(s, m)), BoardOf(Project(s.active.value.tools, m.turn, m.call).0), id)
  {
    ChangeShows(b, s, m);
    ProjectBoard(s.active.value.tools, m.turn, m.call);
  }

  lemma {:induction false} ResultAgreesOn(b: Board, s: Session, m: Message, id: string)
    requires m.ToolDone? && IsActive(s, m.turn) && OwnTools(s)
    requires id in Mended(s, m) || (AgreesOn(b, s, id) && id !in Parted(s, m))
    ensures SameEntry(TakeAll(Shown, b, Emitted(s, m)), BoardOf(WithoutTool(s.active.value.tools, m.toolCall)), id)
  {
    ResultShows(b, s, m);
    BoardWithout(s.active.value.tools, m.toolCall);
  }

  /** A client in agreement stays so over a message exactly when the message parts no entry. */
  lemma {:induction false} StepAgrees(b: Board, s: Session, m: Message)
    requires OwnTools(s) && !s.stopped && Agrees(b, s)
    ensures Agrees(TakeAll(Shown, b, Emitted(s, m)), Handle(s, m).0) <==> Parted(s, m) == {}
  {
    var b', s' := TakeAll(Shown, b, Emitted(s, m)), Handle(s, m).0;
    AgreesEverywhere(b, s);
    AgreesEverywhere(b', s');
    if Parted(s, m) == {} {
      forall id ensures AgreesOn(b', s', id) {
        assert AgreesOn(b, s, id);
        StepAgreesOn(b, s, m, id);
      }
    } else {
      PartedDisagrees(b, s, m);
    }
  }

  lemma {:induction false} PartedDisagrees(b: Board, s: Session, m: Message)
    requires OwnTools(s) && !s.stopped && Agrees(b, s) && Parted(s, m) != {}
    ensures !Agrees(TakeAll(Shown, b, Emitted(s, m)), Handle(s, m).0)
  {
    var tools := s.active.value.tools;
    ToolEvents(s, m);
    if m.ToolChanged? {
      ChangeShows(b, s, m);
      ProjectBoard(tools, m.turn, m.call);
    } else if m.ToolDone? {
      ResultShows(b, s, m);
      BoardWithout(tools, m.toolCall);
      assert m.toolCall in b && m.toolCall !in BoardOf(tools) - {m.toolCall};
    } else {
      var id :| id in BoardOf(tools);
      InterruptionShows(b, m.turn, tools, m.status, m.recordedFlags, id);
      assert id !in BoardOf([]);
    }
  }

  // ---------------------------------------------------------------- whole runs

  lemma {:induction false} RunKeepsOwnTools(s: Session, ms: seq<Message>)
    requires OwnTools(s) && Handled(s, ms)
    ensures OwnTools(Run(s, ms)) && s.events <= Run(s, ms).events
  {
    if ms != [] {
      HandledFront(s, ms);
      RunKeepsOwnTools(s, ms[..|ms| - 1]);
      StepKeepsOwnTools(Run(s, ms[..|ms| - 1]), ms[|ms| - 1]);
      FollowNext(Shown, map[], s, Run(s, ms[..|ms| - 1]), ms[|ms| - 1]);
    }
  }

  /** Over every run, a client's entry agrees with the actor's unless it has gone astray and not been mended. */
  lemma {:induction false} EntriesAgreeOffAstray(b: Board, s: Session, ms: seq<Message>, id: string)
    requires OwnTools(s) && Agrees(b, s) && Handled(s, ms) && id !in Astray(s, ms)
    ensures s.events <= Run(s, ms).events
    ensures AgreesOn(Follow(Shown, b, Run(s, ms).events[|s.events|..]), Run(s, ms), id)
  {
    RunKeepsOwnTools(s, ms);
    if ms == [] {
      AgreesEverywhere(b, s);
      assert s.events[|s.events|..] == [];
    } else {
      var front, m := ms[..|ms| - 1], ms[|ms| - 1];
      var s1 := Run(s, front);
      HandledFront(s, ms);
      RunKeepsOwnTools(s, front);
      FollowNext(Shown, b, s, s1, m);
      if !Starts(s1, m) && id !in Mended(s1, m) {
        EntriesAgreeOffAstray(b, s, front, id);
      }
      StepAgreesOn(Follow(Shown, b, s1.events[|s.events|..]), s1, m, id);
    }
  }

  /** A client's board at one moment of a run. */
  ghost predicate AgreesAt(b: Board, s: Session, ms: seq<Message>, k: nat)
    requires k <= |ms|
  {
    s.events <= Run(s, ms[..k]).events
    && Agrees(Follow(Shown, b, Run(s, ms[..k]).events[|s.events|..]), Run(s, ms[..k]))
  }

  lemma {:induction false} HandledPart(s: Session, ms: seq<Message>, k: nat)
    requires Handled(s, ms) && k <= |ms|
    ensures Handled(s, ms[..k]) && (k < |ms| ==> !Run(s, ms[..k]).stopped)
  {
    assert forall j :: 0 <= j < k ==> ms[..k][..j] == ms[..j];
  }

  /** Agreement at one moment goes over to the next exactly when nothing parts. */
  lemma {:induction false} NextAgrees(b: Board, s: Session, ms: seq<Message>, k: nat)
    requires OwnTools(s) && Handled(s, ms) && k < |ms| && AgreesAt(b, s, ms, k)
    ensures AgreesAt(b, s, ms, k + 1) <==> Parted(Run(s, ms[..k]), ms[k]) == {}
  {
    var s1 := Run(s, ms[..k]);
    HandledPart(s, ms, k);
    RunKeepsOwnTools(s, ms[..k]);
    assert ms[..k + 1][..k] == ms[..k];
    FollowNext(Shown, b, s, s1, ms[k]);
    StepAgrees(Follow(Shown, b, s1.events[|s.events|..]), s1, ms[k]);
  }

  lemma {:induction false} AgreesSoFar(b: Board, s: Session, ms: seq<Message>, k: nat)
    requires OwnTools(s) && Agrees(b, s) && Handled(s, ms) && k <= |ms|
    requires forall j :: 0 <= j < k ==> Parted(Run(s, ms[..j]), ms[j]) == {}
    ensures AgreesAt(b, s, ms, k)
  {
    if k == 0 {
      assert ms[..0] == [] && s.events[|s.events|..] == [];
    } else {
      AgreesSoFar(b, s, ms, k - 1);
      NextAgrees(b, s, ms, k - 1);
    }
  }

  /**
   Over every run: a client that follows the broadcast shows the actor's calls at every moment exactly when
   no change and no result of a call goes unrecorded and no interruption takes calls off the actor's list.
   */
  lemma {:induction false} ClientSeesTheTools(b: Board, s: Session, ms: seq<Message>)
    requires OwnTools(s) && Agrees(b, s) && Handled(s, ms)
    ensures (forall k :: 0 <= k <= |ms| ==> AgreesAt(b, s, ms, k))
            <==> (forall k :: 0 <= k < |ms| ==> Parted(Run(s, ms[..k]), ms[k]) == {})
  {
    if forall k :: 0 <= k < |ms| ==> Parted(Run(s, ms[..k]), ms[k]) == {} {
      forall k | 0 <= k <= |ms| ensures AgreesAt(b, s, ms, k) {
        AgreesSoFar(b, s, ms, k);
      }
    }
    if forall k :: 0 <= k <= |ms| ==> AgreesAt(b, s, ms, k) {
      forall k | 0 <= k < |ms| ensures Parted(Run(s, ms[..k]), ms[k]) == {} {
        assert AgreesAt(b, s, ms, k) && AgreesAt(b, s, ms, k + 1);
        NextAgrees(b, s, ms, k);
      }
    }
  }

  // ---------------------------------------------------------------- calls that have ended

  predicate Ended(s: Session, id: string) {
    s.active.Some?
    && var own := BoardOf(s.active.value.tools); id in own && Terminal(own[id].status)
  }

  /** A call leaves the actor's list by its result, by an interruption, or with its turn. */
  predicate TakesOff(s: Session, m: Message, id: string) {
    || Handle(s, m).0.active.None?
    || (m.ToolsInterrupted? && IsActive(s, m.turn))
    || (m.ToolDone? && IsActive(s, m.turn) && m.toolCall == id)
  }

  lemma {:induction false} EndedReport(tools: seq<ToolCall>, turn: TurnId, call: ToolCall, id: string)
    requires Distinct(tools) && id in BoardOf(tools) && Terminal(BoardOf(tools)[id].status)
    ensures var next := BoardOf(Project(tools, turn, call).0);
            id in next && Terminal(next[id].status)
  {
    ProjectBoard(tools, turn, call);
    BoardFinds(tools, call.id);
  }

  /** Over one message, an ended call stays ended exactly when it is not taken off. */
  lemma {:induction false} EndedStep(s: Session, m: Message, id: string)
    requires OwnTools(s) && !s.stopped && Ended(s, id)
    ensures Ended(Handle(s, m).0, id) <==> !TakesOff(s, m, id)
  {
    if MovesTools(m) {
      ToolEvents(s, m);
      if IsActive(s, m.turn) {
        EndedToolStep(s, m, id);
      }
    } else {
      if Starts(s, m) {
        StartNews(s, m);
      }
      OthersKeepTools(s, m);
    }
  }

  lemma {:induction false} EndedToolStep(s: Session, m: Message, id: string)
    requires OwnTools(s) && !s.stopped && Ended(s, id) && MovesTools(m) && IsActive(s, m.turn)
    ensures Ended(Handle(s, m).0, id) <==> !TakesOff(s, m, id)
  {
    var tools := s.active.value.tools;
    ToolEvents(s, m);
    if m.ToolChanged? {
      EndedReport(tools, m.turn, m.call, id);
    } else if m.ToolDone? {
      BoardWithout(tools, m.toolCall);
    }
  }

  lemma {:induction false} EndedSoFar(s: Session, ms: seq<Message>, id: string, k: nat)
    requires OwnTools(s) && Ended(s, id) && Handled(s, ms) && k <= |ms|
    requires forall j :: 0 <= j < k ==> !TakesOff(Run(s, ms[..j]), ms[j], id)
    ensures Ended(Run(s, ms[..k]), id)
  {
    if k == 0 {
      assert ms[..0] == [];
    } else {
      EndedSoFar(s, ms, id, k - 1);
      EndedNext(s, ms, id, k - 1);
    }
  }

  lemma {:induction false} EndedNext(s: Session, ms: seq<Message>, id: string, k: nat)
    requires OwnTools(s) && Handled(s, ms) && k < |ms| && Ended(Run(s, ms[..k]), id)
    ensures Ended(Run(s, ms[..k + 1]), id) <==> !TakesOff(Run(s, ms[..k]), ms[k], id)
  {
    HandledPart(s, ms, k);
    RunKeepsOwnTools(s, ms[..k]);
    assert ms[..k + 1][..k] == ms[..k];
    EndedStep(Run(s, ms[..k]), ms[k], id);
  }

  /**
   Over every run: a call that has ended stays ended, whatever is reported of it, exactly as long as neither
   its result nor an interruption nor the end of its turn takes it off the list.
   */
  lemma {:induction false} EndedStaysEnded(s: Session, ms: seq<Message>, id: string)
    requires OwnTools(s) && Ended(s, id) && Handled(s, ms)
    ensures (forall k :: 0 <= k <= |ms| ==> Ended(Run(s, ms[..k]), id))
            <==> (forall k :: 0 <= k < |ms| ==> !TakesOff(Run(s, ms[..k]), ms[k], id))
  {
    if forall k :: 0 <= k < |ms| ==> !TakesOff(Run(s, ms[..k]), ms[k], id) {
      forall k | 0 <= k <= |ms| ensures Ended(Run(s, ms[..k]), id) {
        EndedSoFar(s, ms, id, k);
      }
    }
    if forall k :: 0 <= k <= |ms| ==> Ended(Run(s, ms[..k]), id) {
      forall k | 0 <= k < |ms| ensures !TakesOff(Run(s, ms[..k]), ms[k], id) {
        assert Ended(Run(s, ms[..k]), id) && Ended(Run(s, ms[..k + 1]), id);
        EndedNext(s, ms, id, k);
      }
    }
  }

  /** A late report that a call is under way is believed unless the call has ended, however its end is spelt. */
  lemma LateReports(s: Session, m: Message, i: nat)
    requires m.ToolChanged? && IsActive(s, m.turn) && OwnTools(s) && !s.stopped
    requires i < |s.active.value.tools| && m.call == s.active.value.tools[i].(status := "in_progress")
    ensures var tools := s.active.value.tools;
            var was := tools[i].status;
            var ended := was == "completed" || was == "failed" || was == "cancelled" || was == "canceled";
            Handle(s, m).0.active.value.tools == tools[i := if ended then tools[i] else m.call]
  {
    var tools := s.active.value.tools;
    assert FindTool(tools, m.call.id) == i;
    assert !Terminal("in_progress");
    assert tools[i].(status := tools[i].status) == tools[i];
  }

  // ---------------------------------------------------------------- interruptions

  /** No call that a client shows is left running. */
  ghost predicate NothingRuns(b: Board) {
    forall id :: id in b ==> Terminal(b[id].status)
  }

  /** What a client in agreement shows of one call after an interruption. */
  lemma CallAfterInterruption(b: Board, s: Session, m: Message, i: nat)
    requires m.ToolsInterrupted? && IsActive(s, m.turn) && OwnTools(s) && !s.stopped && Agrees(b, s)
    requires i < |s.active.value.tools| && !Terminal(s.active.value.tools[i].status) && Terminal(m.status)
    ensures var after := TakeAll(Shown, b, Emitted(s, m));
            var id := s.active.value.tools[i].id;
            id in after && (Terminal(after[id].status) <==> SavedAt(m.recordedFlags, i))
  {
    var tools := s.active.value.tools;
    BoardFinds(tools, tools[i].id);
    BoardHolds(tools, i);
    assert FindTool(tools, tools[i].id) == i;
    InterruptionShows(b, m.turn, tools, m.status, m.recordedFlags, tools[i].id);
  }

  /**
   After an interruption a client in agreement shows no call as running exactly when the record of every
   call that was unfinished has been saved.
   */
  lemma {:induction false} InterruptionEndsEverything(b: Board, s: Session, m: Message)
    requires m.ToolsInterrupted? && IsActive(s, m.turn) && OwnTools(s) && !s.stopped && Agrees(b, s)
    requires Terminal(m.status)
    ensures var tools := s.active.value.tools;
            NothingRuns(TakeAll(Shown, b, Emitted(s, m)))
            <==> forall i :: 0 <= i < |tools| && !Terminal(tools[i].status) ==> SavedAt(m.recordedFlags, i)
  {
    var tools := s.active.value.tools;
    var after := TakeAll(Shown, b, Emitted(s, m));
    if forall i :: 0 <= i < |tools| && !Terminal(tools[i].status) ==> SavedAt(m.recordedFlags, i) {
      forall id | id in after ensures Terminal(after[id].status) {
        InterruptionShows(b, m.turn, tools, m.status, m.recordedFlags, id);
        BoardFinds(tools, id);
      }
    }
    if NothingRuns(after) {
      forall i | 0 <= i < |tools| && !Terminal(tools[i].status) ensures SavedAt(m.recordedFlags, i) {
        CallAfterInterruption(b, s, m, i);
      }
    }
  }

  /** What an interruption takes off is forgotten: a call that had ended can be reported, and shown, as running. */
  lemma {:induction false} AnEndedCallCanRestart(s: Session, turn: TurnId, call: ToolCall, status: string)
    requires !s.stopped && IsActive(s, turn) && s.active.value.tools == [call] && Terminal(call.status)
    ensures var cut := Handle(s, ToolsInterrupted(turn, status, [])).0;
            var again := ToolChanged(turn, call.(status := "in_progress"), true);
            && Emitted(cut, again) == [ToolStarted(turn, call.(status := "in_progress"))]
            && Shown(BoardOf([call]), ToolStarted(turn, call.(status := "in_progress")))
               == map[call.id := call.(status := "in_progress")]
  {
    ToolEvents(s, ToolsInterrupted(turn, status, []));
    var cut := Handle(s, ToolsInterrupted(turn, status, [])).0;
    assert cut.active.value.tools == [];
    InterruptKeepsControl(s.(active := Some(s.active.value.(tools := []))), turn, s.active.value.tools, status, []);
    assert BoardOf([call]) == map[call.id := call] by {
      assert [call][..0] == [];
    }
  }
}
