/**
 What a replay of the actor's snapshot shows and closes (crates/dwo-agent-service/src/session.rs, the terminal
 telemetry and the snapshot; crates/dwo-acp/src/lib.rs, replay_terminal_outputs): the set of live terminals,
 the cached views and the transcript after any run, put together.
 */
module ReplayedTerminals {
  import opened Common
  import opened Events
  import opened SessionActor
  import opened SessionRuns
  import opened SessionEmissions
  import opened SessionStream
  import Replay
  import TerminalCache
  import TerminalStatus

  // ---------------------------------------------------------------- live terminals

  predicate Exits(m: Message, id: TerminalId) {
    m.Observed? && m.telemetry.Exited? && m.telemetry.id == id
  }

  /** The last of them opens the terminal at k, and no exit follows. */
  ghost predicate OpenedAt(ms: seq<Message>, id: TerminalId, k: nat) {
    k < |ms| && Opens(ms[k], id) && forall j :: k < j < |ms| ==> !Exits(ms[j], id)
  }

  /** Opened, and not exited since. */
  ghost predicate LeftOpen(ms: seq<Message>, id: TerminalId) {
    exists k: nat :: OpenedAt(ms, id, k)
  }

  lemma {:induction false} LeftOpenMore(front: seq<Message>, m: Message, id: TerminalId)
    ensures LeftOpen(front + [m], id) <==> Opens(m, id) || (!Exits(m, id) && LeftOpen(front, id))
  {
    var ms := front + [m];
    if k: nat :| OpenedAt(ms, id, k) && k < |front| {
      forall j | k < j < |front| ensures !Exits(front[j], id) {
        assert !Exits(ms[j], id);
      }
      assert OpenedAt(front, id, k) && !Exits(ms[|front|], id);
    }
    if Opens(m, id) {
      assert OpenedAt(ms, id, |front|);
    } else if k: nat :| OpenedAt(front, id, k) && !Exits(m, id) {
      assert OpenedAt(ms, id, k);
    }
  }

  /** Over every run: live are exactly the terminals opened in it and not exited since. */
  lemma {:induction false} LiveIsOpenedNotExited(s: Session, ms: seq<Message>, id: TerminalId)
    requires s.live == {} && Handled(s, ms)
    ensures id in Run(s, ms).live <==> LeftOpen(ms, id)
  {
    if ms != [] {
      HandledFront(s, ms);
      LiveIsOpenedNotExited(s, ms[..|ms| - 1], id);
      TerminalsChangeOnlyByTelemetry(Run(s, ms[..|ms| - 1]), ms[|ms| - 1]);
      LeftOpenMore(ms[..|ms| - 1], ms[|ms| - 1], id);
      assert ms[..|ms| - 1] + [ms[|ms| - 1]] == ms;
    }
  }

  /** The actor's cache is the one of the telemetry it has received, whose openings are fresh. */
  lemma {:induction false} ViewsAreOfTelemetry(s: Session, ms: seq<Message>)
    requires s.views == [] && Handled(s, ms) && FreshTerminals(s, ms)
    ensures Run(s, ms).views == TerminalCache.Views(Telemetries(ms))
    ensures TerminalCache.FreshOpens(Telemetries(ms))
  {
    if ms != [] {
      var front, m := ms[..|ms| - 1], ms[|ms| - 1];
      HandledFront(s, ms);
      assert FreshTerminals(s, front) by {
        forall k | 0 <= k < |front| ensures front[..k] == ms[..k] {
        }
      }
      ViewsAreOfTelemetry(s, front);
      TerminalsChangeOnlyByTelemetry(Run(s, front), m);
      if m.Observed? {
        FreshMore(Telemetries(front), m.telemetry);
      }
    }
  }

  lemma FreshMore(log: seq<TerminalCache.Telemetry>, e: TerminalCache.Telemetry)
    requires TerminalCache.FreshOpens(log)
    requires e.Opened? ==> !TerminalCache.Cached(TerminalCache.Views(log), e.id)
    ensures TerminalCache.FreshOpens(log + [e])
    ensures TerminalCache.Views(log + [e]) == TerminalCache.Observe(TerminalCache.Views(log), e)
  {
    var more := log + [e];
    assert more[..|log|] == log;
    assert forall k :: 0 <= k < |log| ==> more[..k] == log[..k] && more[k] == log[k];
  }

  lemma {:induction false} LiveIsInTelemetry(s: Session, ms: seq<Message>, id: TerminalId)
    requires s.live == {} && Handled(s, ms)
    ensures id in Run(s, ms).live
      <==> TerminalStatus.OpenOf(Telemetries(ms), id).Some? && TerminalStatus.ExitOf(Telemetries(ms), id).None?
  {
    if ms != [] {
      var front, m := ms[..|ms| - 1], ms[|ms| - 1];
      HandledFront(s, ms);
      LiveIsInTelemetry(s, front, id);
      TerminalsChangeOnlyByTelemetry(Run(s, front), m);
      if m.Observed? {
        TerminalStatus.TellsMore(Telemetries(front), m.telemetry, id);
      }
    }
  }

  /** Over every run with honest exits: a cached view says that it runs exactly if its terminal is live. */
  lemma {:induction false} CachedRunIffLive(s: Session, ms: seq<Message>, v: TerminalCache.View)
    requires s.views == [] && s.live == {} && Handled(s, ms) && FreshTerminals(s, ms)
    requires TerminalStatus.HonestExits(Telemetries(ms)) && v in Run(s, ms).views
    ensures v.Running() <==> v.id in Run(s, ms).live
  {
    ViewsAreOfTelemetry(s, ms);
    LiveIsInTelemetry(s, ms, v.id);
    TerminalStatus.RunningMeansNoExit(Telemetries(ms), v);
    TerminalStatus.ViewsTellTheLog(Telemetries(ms));
    assert TerminalStatus.Told(v, Telemetries(ms));
  }

  /** Over every run: the cached views tell what the telemetry told of their terminals. */
  lemma {:induction false} RunViewsTellTheTelemetry(s: Session, ms: seq<Message>)
    requires s.views == [] && Handled(s, ms) && FreshTerminals(s, ms)
    ensures TerminalStatus.AllTold(Run(s, ms).views, Telemetries(ms))
  {
    ViewsAreOfTelemetry(s, ms);
    TerminalStatus.ViewsTellTheLog(Telemetries(ms));
  }

  /** Over every run with honest exits: what an opening evicts still runs only if all that stays cached runs. */
  lemma {:induction false} RunningGoLast(s: Session, ms: seq<Message>, m: Message, v: TerminalCache.View, u: TerminalCache.View)
    requires s.views == [] && s.live == {} && Handled(s, ms + [m]) && FreshTerminals(s, ms + [m])
    requires TerminalStatus.HonestExits(Telemetries(ms + [m])) && m.Observed? && m.telemetry.Opened?
    requires v in Run(s, ms).views && v.id in Run(s, ms).live && v !in Run(s, ms + [m]).views
    requires u in Run(s, ms + [m]).views
    ensures u.id in Run(s, ms + [m]).live
  {
    var all := ms + [m];
    assert all[..|ms|] == ms && Telemetries(all) == Telemetries(ms) + [m.telemetry];
    HandledFront(s, all);
    assert FreshTerminals(s, ms) by {
      forall k | 0 <= k < |ms| ensures ms[..k] == all[..k] {
      }
    }
    ViewsAreOfTelemetry(s, ms);
    ViewsAreOfTelemetry(s, all);
    LiveIsInTelemetry(s, ms, v.id);
    TerminalStatus.ExitedGoFirst(Telemetries(ms), m.telemetry, v, u);
    LiveIsInTelemetry(s, all, u.id);
    TerminalStatus.ViewsTellTheLog(Telemetries(all));
    assert TerminalStatus.Told(u, Telemetries(all));
  }

  // ---------------------------------------------------------------- exits in the transcript

  predicate IsExit(p: Payload, id: TerminalId) {
    p.TerminalExited? && p.terminal == id
  }

  ghost predicate ExitIn(transcript: seq<Payload>, id: TerminalId) {
    exists p :: p in transcript && IsExit(p, id)
  }

  /** The exit is reported and its record saved. */
  predicate SavesExit(m: Message, id: TerminalId) {
    Exits(m, id) && m.recorded
  }

  lemma {:induction false} RecordedAre(ps: seq<Payload>, p: Payload)
    ensures p in RecordedOnly(ps) <==> p in ps && IsRecorded(p)
  {
    if ps != [] {
      RecordedAre(ps[..|ps| - 1], p);
      assert ps == ps[..|ps| - 1] + [ps[|ps| - 1]];
    }
  }

  lemma KindsWithoutExit(m: Message, p: Payload)
    requires MayEmit(m, p) && !m.Observed?
    ensures !p.TerminalExited?
  {
  }

  lemma {:induction false} ExitEmitted(s: Session, m: Message, id: TerminalId)
    ensures ExitIn(Emitted(s, m), id) <==> SavesExit(m, id)
  {
    if m.Observed? {
      if SavesExit(m, id) {
        assert TerminalExited(m.turn, id) in Emitted(s, m) && IsExit(TerminalExited(m.turn, id), id);
      }
    } else {
      EmittedKinds(s, m);
      forall p | p in Emitted(s, m) ensures !IsExit(p, id) {
        KindsWithoutExit(m, p);
      }
    }
  }

  lemma {:induction false} ExitStep(s: Session, m: Message, id: TerminalId)
    requires !s.stopped
    ensures ExitIn(Handle(s, m).0.transcript, id) <==> ExitIn(s.transcript, id) || SavesExit(m, id)
  {
    var added := RecordedOnly(Emitted(s, m));
    HandleSends(s, m);
    ExitEmitted(s, m, id);
    assert ExitIn(added, id) <==> ExitIn(Emitted(s, m), id) by {
      forall p ensures p in added <==> p in Emitted(s, m) && IsRecorded(p) {
        RecordedAre(Emitted(s, m), p);
      }
    }
    assert forall p :: p in s.transcript + added <==> p in s.transcript || p in added;
  }

  /** Over every run: the transcript has an exit exactly if it had it before, or one was reported and saved. */
  lemma {:induction false} ExitsInTranscript(s: Session, ms: seq<Message>, id: TerminalId)
    requires Handled(s, ms)
    ensures ExitIn(Run(s, ms).transcript, id)
            <==> ExitIn(s.transcript, id) || exists k :: 0 <= k < |ms| && SavesExit(ms[k], id)
  {
    if ms != [] {
      var n := |ms| - 1;
      HandledFront(s, ms);
      ExitsInTranscript(s, ms[..n], id);
      ExitStep(Run(s, ms[..n]), ms[n], id);
      assert forall k :: 0 <= k < n ==> ms[..n][k] == ms[k];
      if k :| 0 <= k < n && SavesExit(ms[..n][k], id) {
        assert SavesExit(ms[k], id);
      }
      if k :| 0 <= k < |ms| && SavesExit(ms[k], id) && k < n {
        assert SavesExit(ms[..n][k], id);
      }
    }
  }

  // ---------------------------------------------------------------- the replay of a snapshot

  /** An entry as the replay reads it; what a tool's result holds is not in the payload. */
  predicate ReadsAs(p: Payload, e: Replay.Entry) {
    match p
    case TerminalOpened(_, id) => e == Replay.TerminalOpened(id)
    case TerminalOutput(_, id, data) => e == Replay.TerminalOutput(id, data)
    case TerminalExited(_, id) => e == Replay.TerminalExited(id)
    case _ => e.Polled? || e.Unrelated?
  }

  ghost predicate ReadsAll(transcript: seq<Payload>, entries: seq<Replay.Entry>) {
    |entries| == |transcript| && forall i :: 0 <= i < |entries| ==> ReadsAs(transcript[i], entries[i])
  }

  /** The views as the replay gets them: all of them hold bytes. */
  function RetainedOf(views: seq<TerminalCache.View>): (retained: seq<Replay.RetainedView>)
    ensures |retained| == |views|
  {
    if views == [] then []
    else
      var v := views[|views| - 1];
      RetainedOf(views[..|views| - 1]) + [Replay.RetainedView(v.id, Some(v.output), v.dropped, v.Running())]
  }

  lemma {:induction false} RetainedAreCached(views: seq<TerminalCache.View>, id: TerminalId)
    ensures id in Replay.Retained(RetainedOf(views)) <==> TerminalCache.Cached(views, id)
  {
    if views != [] {
      var n := |views| - 1;
      RetainedAreCached(views[..n], id);
      var all, front := RetainedOf(views), RetainedOf(views[..n]);
      assert all == front + [all[n]] && all[n].id == views[n].id && all[n].output.Some?;
      assert views == views[..n] + [views[n]];
    }
  }

  /** A replay shows each cached terminal as the cache has it: its bytes, how many are missing, and whether it runs. */
  lemma {:induction false} ReplayShowsTheCache(views: seq<TerminalCache.View>, i: nat)
    requires i < |views|
    ensures var shown := Replay.ActorUpdates(RetainedOf(views));
            |shown| == |views|
            && shown[i] == Replay.FromActor(views[i].id, views[i].output, views[i].dropped, views[i].status == "running")
  {
    var n := |views| - 1;
    assert RetainedOf(views)[..n] == RetainedOf(views[..n]);
    if i < n {
      ReplayShowsTheCache(views[..n], i);
    } else if n > 0 {
      ReplayShowsTheCache(views[..n], 0);
    }
  }

  /** Of a terminal that is not cached it shows what was streamed, and what was polled only if nothing was streamed. */
  lemma ReplayShowsTheTranscript(views: seq<Replay.RetainedView>, live: set<TerminalId>, entries: seq<Replay.Entry>,
                                 id: TerminalId, output: seq<byte>)
    requires Replay.Owed(views, live, entries, Replay.FromTranscript(id, output))
    ensures id !in Replay.Retained(views)
    ensures (exists e :: e in entries && e.TerminalOutput? && e.id == id) ==> output == Replay.StreamedBytes(entries, id)
    ensures (forall e :: e in entries && e.TerminalOutput? ==> e.id != id) ==> output == Replay.PolledBytes(entries, id)
  {
  }

  lemma ExitsAreRead(transcript: seq<Payload>, entries: seq<Replay.Entry>, id: TerminalId)
    requires ReadsAll(transcript, entries)
    ensures Replay.TerminalExited(id) in entries <==> ExitIn(transcript, id)
  {
    if Replay.TerminalExited(id) in entries {
      var i :| 0 <= i < |entries| && entries[i] == Replay.TerminalExited(id);
      assert transcript[i] in transcript && IsExit(transcript[i], id);
    }
    if ExitIn(transcript, id) {
      var i :| 0 <= i < |transcript| && IsExit(transcript[i], id);
      assert entries[i] in entries;
    }
  }

  /**
   Over every run of the actor: a replay of its snapshot closes exactly the terminals that the transcript names
   and the cache does not hold, that this run did not open, or opened and saw exit, and for which no exit was in
   the transcript before or has been saved since.
   */
  lemma {:induction false} ReplayCloses(life: Life, history: seq<Payload>, ms: seq<Message>,
                                        entries: seq<Replay.Entry>, id: TerminalId)
    requires Handled(Init(life, history), ms)
    requires ReadsAll(Run(Init(life, history), ms).transcript, entries)
    ensures var now := Run(Init(life, history), ms);
            Replay.Owed(RetainedOf(now.views), now.live, entries, Replay.Close(id))
            <==> && !TerminalCache.Cached(now.views, id) && Replay.Known(entries, id)
                 && !LeftOpen(ms, id)
                 && !ExitIn(history, id) && !(exists k :: 0 <= k < |ms| && SavesExit(ms[k], id))
  {
    var s := Init(life, history);
    var now := Run(s, ms);
    RetainedAreCached(now.views, id);
    LiveIsOpenedNotExited(s, ms, id);
    ExitsInTranscript(s, ms, id);
    ExitsAreRead(now.transcript, entries, id);
  }

  /** A terminal opened in the run is closed by a replay only if the record of an exit of it was lost. */
  lemma {:induction false} OnlyLostExitsAreClosed(life: Life, history: seq<Payload>, ms: seq<Message>,
                                                  entries: seq<Replay.Entry>, id: TerminalId, k: nat)
    returns (j: nat)
    requires Handled(Init(life, history), ms) && k < |ms| && Opens(ms[k], id)
    requires ReadsAll(Run(Init(life, history), ms).transcript, entries)
    requires var now := Run(Init(life, history), ms);
             Replay.Owed(RetainedOf(now.views), now.live, entries, Replay.Close(id))
    ensures k < j < |ms| && Exits(ms[j], id) && !ms[j].recorded
  {
    ReplayCloses(life, history, ms, entries, id);
    assert !OpenedAt(ms, id, k);
    j :| k < j < |ms| && Exits(ms[j], id);
    assert !SavesExit(ms[j], id);
  }
}
