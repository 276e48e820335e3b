/**
 What a client rebuilds from the actor's broadcast: for any subscription point and any later run, the
 folded step, transcript and terminal bytes against the actor's own.
 */
module SessionStream {
  import opened Common
  import opened Events
  import opened Permission
  import TerminalCache
  import opened SessionActor
  import opened SessionRuns
  import opened SessionEmissions

  // ---------------------------------------------------------------- watching lists of payloads

  function SeeAll(c: Client, ps: seq<Payload>): Client {
    if ps == [] then c else See(SeeAll(c, ps[..|ps| - 1]), ps[|ps| - 1])
  }

  lemma {:induction false} WatchNumbered(c: Client, last: nat, ps: seq<Payload>)
    ensures Watch(c, NumberFrom(last, ps)) == SeeAll(c, ps)
  {
    if ps != [] {
      WatchNumbered(c, last, ps[..|ps| - 1]);
      WatchMore(c, NumberFrom(last, ps[..|ps| - 1]), Event(last + |ps|, ps[|ps| - 1]));
    }
  }

  lemma SeeMore(c: Client, ps: seq<Payload>, p: Payload)
    ensures SeeAll(c, ps + [p]) == See(SeeAll(c, ps), p)
  {
    assert (ps + [p])[..|ps|] == ps;
  }

  lemma SeeOne(c: Client, p: Payload)
    ensures SeeAll(c, [p]) == See(c, p)
  {
    SeeMore(c, [], p);
    assert [] + [p] == [p];
  }

  lemma {:induction false} SeeTranscript(c: Client, ps: seq<Payload>)
    ensures SeeAll(c, ps).transcript == c.transcript + RecordedOnly(ps)
  {
    if ps != [] {
      SeeTranscript(c, ps[..|ps| - 1]);
    }
  }

  lemma {:induction false} SeeQuiet(c: Client, ps: seq<Payload>)
    requires AllQuiet(ps)
    ensures SeeAll(c, ps).step == c.step
    ensures (forall p :: p in ps ==> !p.TerminalOutput?) ==> SeeAll(c, ps).output == c.output
  {
    if ps != [] {
      assert ps[|ps| - 1] in ps;
      assert forall p :: p in ps[..|ps| - 1] ==> p in ps;
      SeeQuiet(c, ps[..|ps| - 1]);
    }
  }

  // ---------------------------------------------------------------- the replica relation

  /** Same turn, step, revision and texts; a message id is compared once its own text is not empty. */
  predicate StepAgrees(step: Option<Step>, active: Option<ActiveTurn>) {
    if active.None? then step.None?
    else
      var a := active.value;
      && step.Some?
      && step.value.turn == a.id && step.value.stepId == a.stepId && step.value.revision == a.revision
      && step.value.response == a.response && step.value.reasoning == a.reasoning
      && (a.response != "" ==> step.value.messageId == Some(a.message))
      && (a.reasoning != "" ==> step.value.thoughtId == Some(a.thought))
  }

  /**
   The folded step is `lag` steps behind the actor's. It falls behind when the record of a finished
   step could not be saved, hence was not broadcast; the actor's step has streamed nothing since.
   */
  predicate StepLags(step: Option<Step>, active: Option<ActiveTurn>, lag: nat) {
    if lag == 0 then StepAgrees(step, active)
    else
      && active.Some? && step.Some?
      && step.value.turn == active.value.id && step.value.stepId + lag == active.value.stepId
      && active.value.revision == 0 && active.value.response == "" && active.value.reasoning == ""
  }

  predicate Replica(c: Client, s: Session, lag: nat) {
    c.transcript == s.transcript && (!s.stopped ==> StepLags(c.step, s.active, lag))
  }

  /** How far a folded step is behind after one more message. */
  function Lag(lag: nat, s: Session, m: Message): nat {
    match m
    case Streamed(turn, _, _) => if IsActive(s, turn) then 0 else lag
    case StepEnded(turn, _, _, _, _, recorded) => if IsActive(s, turn) && !recorded then lag + 1 else lag
    case TurnDone(turn, _, _, _) => if IsActive(s, turn) then 0 else lag
    case AskPrompt(_, _) => if s.active.None? then 0 else lag
    case _ => lag
  }

  /** The bytes a message has broadcast for a terminal. */
  function Wrote(m: Message, id: TerminalId): seq<byte> {
    if m.Observed? && m.telemetry.Output? && m.telemetry.id == id then m.telemetry.data else []
  }

  // ---------------------------------------------------------------- one message

  /** A message that moves no step. */
  lemma {:induction false} QuietReplica(c: Client, s: Session, lag: nat, m: Message)
    requires !MovesStep(s, m) && !s.stopped && Replica(c, s, lag)
    requires m.AskPrompt? ==> s.active.Some? || lag == 0
    ensures !Handle(s, m).0.stopped ==> StepLags(SeeAll(c, Emitted(s, m)).step, Handle(s, m).0.active, Lag(lag, s, m))
  {
    OthersAreQuiet(s, m);
    OthersKeepStep(s, m);
    SeeQuiet(c, Emitted(s, m));
  }

  lemma StreamedReplica(c: Client, s: Session, lag: nat, m: Message)
    requires m.Streamed? && !s.stopped && Replica(c, s, lag)
    ensures StepLags(SeeAll(c, Emitted(s, m)).step, Handle(s, m).0.active, Lag(lag, s, m))
  {
    if IsActive(s, m.turn) {
      SeeOne(c, DeltaOf(s.active.value, m.isReasoning, m.delta));
    }
  }

  lemma StepEndedReplica(c: Client, s: Session, lag: nat, m: Message)
    requires m.StepEnded? && !s.stopped && Replica(c, s, lag)
    ensures StepLags(SeeAll(c, Emitted(s, m)).step, Handle(s, m).0.active, Lag(lag, s, m))
  {
    if IsActive(s, m.turn) && m.recorded {
      SeeOne(c, StepNews(s.active.value, m.interrupted, m.content));
    }
  }

  lemma TurnDoneReplica(c: Client, s: Session, lag: nat, m: Message)
    requires m.TurnDone? && !s.stopped && Replica(c, s, lag)
    ensures !Handle(s, m).0.stopped ==> StepLags(SeeAll(c, Emitted(s, m)).step, Handle(s, m).0.active, Lag(lag, s, m))
  {
    if IsActive(s, m.turn) {
      SeeOne(c, Ending(m.turn, m.outcome));
    }
  }

  lemma StartStep(c: Client, w: PromptWorld)
    ensures StepAgrees(See(c, TurnStarted(w.turn)).step, Some(NewTurn(w)))
  {
  }

  lemma StartReplica(c: Client, s: Session, lag: nat, m: Message)
    requires m.AskPrompt? && StartsTurn(s, m.prompt, m.world) && !s.stopped && Replica(c, s, lag)
    ensures StepLags(SeeAll(c, Emitted(s, m)).step, Handle(s, m).0.active, Lag(lag, s, m))
  {
    StartNews(s, m);
    var ps, started := Preamble(m.prompt, m.world), TurnStarted(m.world.turn);
    SeeMore(c, ps, started);
    StartStep(SeeAll(c, ps), m.world);
    assert SeeAll(c, Emitted(s, m)) == See(SeeAll(c, ps), started);
  }

  /** No message but terminal output carries terminal bytes. */
  lemma HandleBytes(c: Client, s: Session, m: Message)
    ensures forall id :: SeeAll(c, Emitted(s, m)).Bytes(id) == c.Bytes(id) + Wrote(m, id)
  {
    if m.Observed? {
      SeeOne(c, TelemetryNews(m.turn, m.telemetry));
    } else {
      CarriesNoBytes(c, s, m);
      assert SeeAll(c, Emitted(s, m)).output == c.output;
    }
  }

  lemma CarriesNoBytes(c: Client, s: Session, m: Message)
    requires !m.Observed?
    ensures SeeAll(c, Emitted(s, m)).output == c.output
  {
    if !MovesStep(s, m) {
      OthersAreQuiet(s, m);
      SeeQuiet(c, Emitted(s, m));
    } else {
      SeeNoOutput(c, Emitted(s, m));
    }
  }

  lemma {:induction false} SeeNoOutput(c: Client, ps: seq<Payload>)
    requires forall k :: 0 <= k < |ps| ==> !ps[k].TerminalOutput?
    ensures SeeAll(c, ps).output == c.output
  {
    if ps != [] {
      SeeNoOutput(c, ps[..|ps| - 1]);
    }
  }

  /** Whatever the message, a client that follows the broadcast keeps up with the actor. */
  lemma {:induction false} HandleReplica(c: Client, s: Session, lag: nat, m: Message)
    requires Replica(c, s, lag) && !s.stopped
    ensures Replica(SeeAll(c, Emitted(s, m)), Handle(s, m).0, Lag(lag, s, m))
    ensures forall id :: SeeAll(c, Emitted(s, m)).Bytes(id) == c.Bytes(id) + Wrote(m, id)
  {
    HandleSends(s, m);
    SeeTranscript(c, Emitted(s, m));
    HandleBytes(c, s, m);
    if m.Streamed? {
      StreamedReplica(c, s, lag, m);
    } else if m.StepEnded? {
      StepEndedReplica(c, s, lag, m);
    } else if m.TurnDone? {
      TurnDoneReplica(c, s, lag, m);
    } else if m.AskPrompt? && StartsTurn(s, m.prompt, m.world) {
      StartReplica(c, s, lag, m);
    } else {
      QuietReplica(c, s, lag, m);
    }
  }

  /** Watching on by what one message broadcasts. */
  lemma {:induction false} FollowMessage(c: Client, s: Session, s1: Session, m: Message)
    requires s.events <= s1.events && !s1.stopped
    ensures var s2 := Handle(s1, m).0;
            && s.events <= s2.events
            && Watch(c, s2.events[|s.events|..]) == SeeAll(Watch(c, s1.events[|s.events|..]), Emitted(s1, m))
  {
    var more := NumberFrom(s1.seqNo, Emitted(s1, m));
    HandleSends(s1, m);
    assert (s1.events + more)[|s.events|..] == s1.events[|s.events|..] + more;
    WatchAppend(c, s1.events[|s.events|..], more);
    WatchNumbered(Watch(c, s1.events[|s.events|..]), s1.seqNo, Emitted(s1, m));
  }

  // ---------------------------------------------------------------- whole runs

  /** The actor was still running when it took each of the messages. */
  ghost predicate Handled(s: Session, ms: seq<Message>) {
    forall k :: 0 <= k < |ms| ==> !Run(s, ms[..k]).stopped
  }

  function LagAfter(s: Session, ms: seq<Message>): nat {
    if ms == [] then 0
    else
      var n := |ms| - 1;
      Lag(LagAfter(s, ms[..n]), Run(s, ms[..n]), ms[n])
  }

  function WroteAll(ms: seq<Message>, id: TerminalId): seq<byte> {
    if ms == [] then [] else WroteAll(ms[..|ms| - 1], id) + Wrote(ms[|ms| - 1], id)
  }

  lemma {:induction false} HandledFront(s: Session, ms: seq<Message>)
    requires Handled(s, ms) && ms != []
    ensures Handled(s, ms[..|ms| - 1]) && !Run(s, ms[..|ms| - 1]).stopped
  {
    var front := ms[..|ms| - 1];
    forall k | 0 <= k < |front| ensures !Run(s, front[..k]).stopped {
      assert front[..k] == ms[..k];
    }
  }

  /** Following a run by one more message. */
  lemma {:induction false} FollowOneMore(c: Client, s: Session, s1: Session, lag: nat, m: Message)
    requires s.events <= s1.events && !s1.stopped
    requires Replica(Watch(c, s1.events[|s.events|..]), s1, lag)
    ensures var s2 := Handle(s1, m).0;
            && s.events <= s2.events
            && Replica(Watch(c, s2.events[|s.events|..]), s2, Lag(lag, s1, m))
            && forall id :: Watch(c, s2.events[|s.events|..]).Bytes(id)
                            == Watch(c, s1.events[|s.events|..]).Bytes(id) + Wrote(m, id)
  {
    FollowMessage(c, s, s1, m);
    HandleReplica(Watch(c, s1.events[|s.events|..]), s1, lag, m);
  }

  /** A client in step with the actor at one moment can follow it through any run. */
  lemma {:induction false} FollowRun(c: Client, s: Session, ms: seq<Message>)
    requires Replica(c, s, 0) && Handled(s, ms)
    ensures s.events <= Run(s, ms).events
    ensures Replica(Watch(c, Run(s, ms).events[|s.events|..]), Run(s, ms), LagAfter(s, ms))
  {
    if ms != [] {
      var front, last := ms[..|ms| - 1], ms[|ms| - 1];
      HandledFront(s, ms);
      FollowRun(c, s, front);
      FollowOneMore(c, s, Run(s, front), LagAfter(s, front), last);
    }
  }

  /** And the bytes it gets for a terminal are those that the messages of the run have written. */
  lemma {:induction false} FollowBytes(c: Client, s: Session, ms: seq<Message>, id: TerminalId)
    requires Replica(c, s, 0) && Handled(s, ms)
    ensures s.events <= Run(s, ms).events
    ensures Watch(c, Run(s, ms).events[|s.events|..]).Bytes(id) == c.Bytes(id) + WroteAll(ms, id)
  {
    FollowRun(c, s, ms);
    if ms != [] {
      var front, last := ms[..|ms| - 1], ms[|ms| - 1];
      HandledFront(s, ms);
      FollowBytes(c, s, front, id);
      FollowRun(c, s, front);
      FollowOneMore(c, s, Run(s, front), LagAfter(s, front), last);
      Assoc(c.Bytes(id), WroteAll(front, id), Wrote(last, id));
    }
  }

  // ---------------------------------------------------------------- joining from a snapshot

  function ViewBytes(views: seq<TerminalCache.View>): map<TerminalId, seq<byte>> {
    if views == [] then map[] else ViewBytes(views[1..])[views[0].id := views[0].output]
  }

  lemma {:induction false} ViewBytesHolds(views: seq<TerminalCache.View>, k: nat)
    requires k < |views| && TerminalCache.Distinct(views)
    ensures views[k].id in ViewBytes(views) && ViewBytes(views)[views[k].id] == views[k].output
  {
    if k > 0 {
      assert views[1..][k - 1] == views[k];
      ViewBytesHolds(views[1..], k - 1);
    }
  }

  /** The client state built from a snapshot and the transcript entries the client already held. */
  function Join(snapshot: Snapshot, held: seq<Payload>): Client {
    Client(snapshot.step, held + snapshot.transcript, ViewBytes(snapshot.views))
  }

  /** What a client holds of the transcript when it joins with a cursor: the entries the snapshot leaves out. */
  function HeldUpTo(transcript: seq<Payload>, cursor: Option<nat>): seq<Payload> {
    if cursor.Some? then transcript[..Min(cursor.value, |transcript|)] else []
  }

  /** A cursor saves resending what the client holds: joining gives the whole transcript again. */
  lemma JoinIsInStep(s: Session, cursor: Option<nat>)
    ensures Replica(Join(Subscribe(s, cursor), HeldUpTo(s.transcript, cursor)), s, 0)
  {
  }

  /**
   The stream past a snapshot against the actor: the transcript always, and the step exactly when
   every step that ended since the last streamed text or turn boundary had its record saved.
   */
  lemma {:induction false} SnapshotAndStreamGiveTheState(s: Session, cursor: Option<nat>, ms: seq<Message>)
    requires Inv(s) && Handled(s, ms) && !Run(s, ms).stopped
    ensures var now := Run(s, ms);
            s.events <= now.events
            && var joined := Join(Subscribe(s, cursor), HeldUpTo(s.transcript, cursor));
               var c := Watch(joined, now.events[|s.events|..]);
               && c.transcript == now.transcript
               && (StepAgrees(c.step, now.active) <==> LagAfter(s, ms) == 0)
  {
    JoinIsInStep(s, cursor);
    FollowRun(Join(Subscribe(s, cursor), HeldUpTo(s.transcript, cursor)), s, ms);
  }

  /** When no record of a finished step is lost, the step agrees at every moment. */
  lemma {:induction false} NoLossNoLag(s: Session, ms: seq<Message>)
    requires forall k :: 0 <= k < |ms| && ms[k].StepEnded? ==> ms[k].recorded
    ensures LagAfter(s, ms) == 0
  {
    if ms != [] {
      NoLossNoLag(s, ms[..|ms| - 1]);
    }
  }

  /** A lost record does make a client show an old step, until the next streamed text repairs it. */
  lemma LostRecordLags(s: Session, turn: TurnId, message: MessageId, thought: MessageId, delta: string)
    requires Inv(s) && !s.stopped && IsActive(s, turn)
    ensures var lost := StepEnded(turn, false, "", message, thought, false);
            var next := Streamed(turn, false, delta);
            LagAfter(s, [lost]) == 1 && LagAfter(s, [lost, next]) == 0
  {
    var lost := StepEnded(turn, false, "", message, thought, false);
    var next := Streamed(turn, false, delta);
    assert [lost][..0] == [] && [lost, next][..1] == [lost];
    assert LagAfter(s, []) == 0 && Run(s, []) == s;
    assert LagAfter(s, [lost]) == 1 && IsActive(Run(s, [lost]), turn);
  }

  /** Subscribing again with the cursor of a snapshot sends exactly what has been recorded since. */
  lemma {:induction false} ResubscribingSendsTheRest(s: Session, ms: seq<Message>, cursor: Option<nat>)
    ensures s.transcript <= Run(s, ms).transcript
    ensures Subscribe(Run(s, ms), Some(Subscribe(s, cursor).cursor)).transcript == Run(s, ms).transcript[|s.transcript|..]
  {
    TranscriptsGrow(s, ms);
  }

  lemma {:induction false} TranscriptsGrow(s: Session, ms: seq<Message>)
    ensures s.transcript <= Run(s, ms).transcript
  {
    if ms != [] {
      TranscriptsGrow(s, ms[..|ms| - 1]);
      if !Run(s, ms[..|ms| - 1]).stopped {
        HandleSends(Run(s, ms[..|ms| - 1]), ms[|ms| - 1]);
      }
    }
  }

  // ---------------------------------------------------------------- terminal bytes

  function Telemetries(ms: seq<Message>): seq<TerminalCache.Telemetry> {
    if ms == [] then []
    else
      var front := Telemetries(ms[..|ms| - 1]);
      var m := ms[|ms| - 1];
      if m.Observed? then front + [m.telemetry] else front
  }

  /** Terminal ids are made fresh: none is opened while its view is cached. */
  ghost predicate FreshTerminals(s: Session, ms: seq<Message>) {
    forall k :: 0 <= k < |ms| && ms[k].Observed? && ms[k].telemetry.Opened?
                ==> !TerminalCache.Cached(Run(s, ms[..k]).views, ms[k].telemetry.id)
  }

  predicate Opens(m: Message, id: TerminalId) {
    m.Observed? && m.telemetry.Opened? && m.telemetry.id == id
  }

  lemma {:induction false} RequestsKeepTerminals(s: Session, m: Message)
    requires m.AskPrompt? || m.AskCancel? || m.AskCompact? || m.AskKeep? || m.AskUnload? || m.AskRespond? || m.HandlesDropped?
    ensures Handle(s, m).0.views == s.views && Handle(s, m).0.live == s.live
  {
    if m.AskPrompt? {
      PromptFrame(s, m.prompt, m.world);
    }
  }

  lemma {:induction false} UpdatesKeepTerminals(s: Session, m: Message)
    requires m.Streamed? || m.StepEnded? || m.ToolChanged? || m.ToolDone?
    ensures Handle(s, m).0.views == s.views && Handle(s, m).0.live == s.live
  {
  }

  lemma {:induction false} InterruptionsKeepTerminals(s: Session, m: Message)
    requires m.ToolsInterrupted?
    ensures Handle(s, m).0.views == s.views && Handle(s, m).0.live == s.live
  {
    if IsActive(s, m.turn) {
      InterruptKeepsControl(s.(active := Some(s.active.value.(tools := []))), m.turn, s.active.value.tools,
                            m.status, m.recordedFlags);
    }
  }

  lemma {:induction false} TelemetryMovesTerminals(s: Session, m: Message)
    requires m.Observed? && !s.stopped
    ensures Handle(s, m).0.views == TerminalCache.Observe(s.views, m.telemetry)
    ensures Handle(s, m).0.live == LiveAfter(s.live, m.telemetry)
  {
  }

  lemma {:induction false} EventsKeepTerminals(s: Session, m: Message)
    requires m.PermissionAsked? || m.TimerFired?
    ensures Handle(s, m).0.views == s.views && Handle(s, m).0.live == s.live
  {
  }

  lemma {:induction false} EndsKeepTerminals(s: Session, m: Message)
    requires m.TurnDone? || m.CompactionDone?
    ensures Handle(s, m).0.views == s.views && Handle(s, m).0.live == s.live
  {
  }

  lemma {:induction false} HousekeepingKeepsTerminals(s: Session, m: Message)
    requires m.Housekeeping?
    ensures Handle(s, m).0.views == s.views && Handle(s, m).0.live == s.live
  {
    HousekeepingKeepsControl(s, m.payloads);
  }

  lemma {:induction false} TerminalsChangeOnlyByTelemetry(s: Session, m: Message)
    requires !s.stopped
    ensures Handle(s, m).0.views == if m.Observed? then TerminalCache.Observe(s.views, m.telemetry) else s.views
    ensures Handle(s, m).0.live == if m.Observed? then LiveAfter(s.live, m.telemetry) else s.live
  {
    if m.Streamed? || m.StepEnded? || m.ToolChanged? || m.ToolDone? {
      UpdatesKeepTerminals(s, m);
    } else if m.ToolsInterrupted? {
      InterruptionsKeepTerminals(s, m);
    } else if m.Observed? {
      TelemetryMovesTerminals(s, m);
    } else if m.Housekeeping? {
      HousekeepingKeepsTerminals(s, m);
    } else if m.TurnDone? || m.CompactionDone? {
      EndsKeepTerminals(s, m);
    } else if m.PermissionAsked? || m.TimerFired? {
      EventsKeepTerminals(s, m);
    } else {
      RequestsKeepTerminals(s, m);
    }
  }

  /** The actor's cache after a run is sound for the telemetry of that run. */
  lemma {:induction false} RunKeepsCacheSound(s: Session, ms: seq<Message>)
    requires s.views == [] && Handled(s, ms) && FreshTerminals(s, ms)
    ensures TerminalCache.Sound(Run(s, ms).views, Telemetries(ms))
  {
    if ms != [] {
      var n := |ms| - 1;
      HandledFront(s, ms);
      assert FreshTerminals(s, ms[..n]) by {
        forall k | 0 <= k < n ensures ms[..n][..k] == ms[..k] {}
      }
      RunKeepsCacheSound(s, ms[..n]);
      TerminalsChangeOnlyByTelemetry(Run(s, ms[..n]), ms[n]);
      if ms[n].Observed? {
        TerminalCache.ObserveSound(Run(s, ms[..n]).views, Telemetries(ms[..n]), ms[n].telemetry);
      }
    }
  }

  lemma StreamStep(ms: seq<Message>, m: Message, id: TerminalId)
    requires !Opens(m, id)
    ensures TerminalCache.Stream(Telemetries(ms + [m]), id) == TerminalCache.Stream(Telemetries(ms), id) + Wrote(m, id)
  {
    assert (ms + [m])[..|ms|] == ms;
    if m.Observed? {
      TerminalCache.LogStep(Telemetries(ms), m.telemetry, id);
    }
  }

  /** The stream after `more` is the stream before it and what it wrote. */
  ghost predicate Grown(ms: seq<Message>, more: seq<Message>, id: TerminalId) {
    TerminalCache.Stream(Telemetries(ms + more), id)
    == TerminalCache.Stream(Telemetries(ms), id) + WroteAll(more, id)
  }

  lemma {:induction false} GrownByOne(ms: seq<Message>, front: seq<Message>, last: Message, id: TerminalId)
    requires !Opens(last, id) && Grown(ms, front, id)
    ensures Grown(ms, front + [last], id)
  {
    StreamStep(ms + front, last, id);
    Assoc(ms, front, [last]);
    Assoc(TerminalCache.Stream(Telemetries(ms), id), WroteAll(front, id), Wrote(last, id));
    assert (front + [last])[..|front|] == front;
  }

  lemma {:induction false} StreamGrows(ms: seq<Message>, more: seq<Message>, id: TerminalId)
    requires forall k :: 0 <= k < |more| ==> !Opens(more[k], id)
    ensures Grown(ms, more, id)
    decreases |more|
  {
    if more == [] {
      assert ms + more == ms;
    } else {
      var front := more[..|more| - 1];
      StreamGrows(ms, front, id);
      GrownByOne(ms, front, more[|more| - 1], id);
      assert front + [more[|more| - 1]] == more;
    }
  }

  lemma SuffixGrows(view: TerminalCache.View, stream: seq<byte>, more: seq<byte>)
    requires TerminalCache.Tracks(view, stream)
    ensures view.dropped <= |stream + more| && view.output + more == (stream + more)[view.dropped..]
  {
  }

  /** A joined client that follows the broadcast holds the view's bytes and all output since. */
  lemma {:induction false} JoinedBytes(at: Session, cursor: Option<nat>, after: seq<Message>, k: nat)
    requires Inv(at) && Handled(at, after) && k < |at.views| && TerminalCache.Distinct(at.views)
    ensures var now := Run(at, after);
            var joined := Join(Subscribe(at, cursor), HeldUpTo(at.transcript, cursor));
            at.events <= now.events
            && Watch(joined, now.events[|at.events|..]).Bytes(at.views[k].id)
               == at.views[k].output + WroteAll(after, at.views[k].id)
  {
    var joined := Join(Subscribe(at, cursor), HeldUpTo(at.transcript, cursor));
    JoinIsInStep(at, cursor);
    FollowBytes(joined, at, after, at.views[k].id);
    ViewBytesHolds(at.views, k);
  }

  /**
   No gap, no overlap, nothing newer than the watermark: a snapshot's bytes of a cached terminal are
   its stream so far from offset `dropped` on, and with the output broadcast after the watermark they
   are its whole stream from that offset on. So it is for every client, whatever it held before.
   */
  lemma {:induction false} TerminalBytesAreContinuous(
    s: Session, before: seq<Message>, after: seq<Message>, cursor: Option<nat>, k: nat)
    requires Inv(s) && s.views == [] && Handled(s, before) && FreshTerminals(s, before)
    requires var at := Run(s, before);
             && Handled(at, after) && k < |at.views|
             && (forall j :: 0 <= j < |after| ==> !Opens(after[j], at.views[k].id))
    ensures var at := Run(s, before);
            var now := Run(at, after);
            var view := at.views[k];
            var whole := TerminalCache.Stream(Telemetries(before + after), view.id);
            && TerminalCache.Tracks(view, TerminalCache.Stream(Telemetries(before), view.id))
            && at.events <= now.events
            && view.dropped <= |whole|
            && var joined := Join(Subscribe(at, cursor), HeldUpTo(at.transcript, cursor));
               Watch(joined, now.events[|at.events|..]).Bytes(view.id) == whole[view.dropped..]
  {
    var at := Run(s, before);
    var view := at.views[k];
    RunKeepsInv(s, before);
    RunKeepsCacheSound(s, before);
    JoinedBytes(at, cursor, after, k);
    StreamGrows(before, after, view.id);
    SuffixGrows(view, TerminalCache.Stream(Telemetries(before), view.id), WroteAll(after, view.id));
  }
}
