/**
 Safety of the actor over whole runs: how its broadcast is numbered and bracketed by turns, when a
 session may expire, and how every permission request is decided.
 */
module SessionHistory {
  import opened Common
  import opened Events
  import opened Permission
  import opened SessionActor
  import opened SessionRuns
  import opened SessionEmissions

  // ---------------------------------------------------------------- the bracket automaton

  /** Where a reader of the stream is: between turns, or inside one, at its last streamed step. */
  datatype Place = Outside | Inside(turn: TurnId, stepId: nat, revision: nat) | Broken

  /** The place, and the number of the last event. */
  datatype Audit = Audit(last: nat, place: Place)

  predicate Before(step: nat, revision: nat, step': nat, revision': nat) {
    step < step' || (step == step' && revision < revision')
  }

  function Move(b: Place, p: Payload): Place {
    if p.TurnStarted? then if b.Outside? then Inside(p.turn, 1, 0) else Broken
    else if IsDelta(p) then
      if b.Inside? && b.turn == p.turn && Before(b.stepId, b.revision, p.stepId, p.revision)
      then Inside(p.turn, p.stepId, p.revision) else Broken
    else if p.AssistantCompleted? || p.AssistantInterrupted? then
      if b.Inside? && b.turn == p.turn then b else Broken
    else if IsTurnEnd(p) then if b.Inside? && b.turn == p.turn then Outside else Broken
    else if p.StepSnapshot? then Broken
    else b
  }

  function Check(a: Audit, e: Event): Audit {
    Audit(e.seqNo, if e.seqNo == a.last + 1 then Move(a.place, e.payload) else Broken)
  }

  function Scan(events: seq<Event>): Audit {
    if events == [] then Audit(0, Outside) else Check(Scan(events[..|events| - 1]), events[|events| - 1])
  }

  function Where(s: Session): Place {
    Scan(s.events).place
  }

  predicate Numbered(s: Session) {
    Scan(s.events).last == s.seqNo
  }

  function MoveAll(b: Place, ps: seq<Payload>): Place {
    if ps == [] then b else Move(MoveAll(b, ps[..|ps| - 1]), ps[|ps| - 1])
  }

  lemma {:induction false} ScanNumbered(events: seq<Event>, ps: seq<Payload>)
    ensures var a := Scan(events);
            Scan(events + NumberFrom(a.last, ps)) == Audit(a.last + |ps|, MoveAll(a.place, ps))
    decreases |ps|
  {
    var a := Scan(events);
    if ps == [] {
      assert events + NumberFrom(a.last, ps) == events;
    } else {
      var front := ps[..|ps| - 1];
      ScanNumbered(events, front);
      var all := events + NumberFrom(a.last, ps);
      assert all == (events + NumberFrom(a.last, front)) + [Event(a.last + |ps|, ps[|ps| - 1])];
      assert all[..|all| - 1] == events + NumberFrom(a.last, front);
    }
  }

  lemma {:induction false} QuietMoves(b: Place, ps: seq<Payload>)
    requires AllQuiet(ps)
    ensures MoveAll(b, ps) == b
  {
    if ps != [] {
      assert ps[|ps| - 1] in ps;
      assert forall p :: p in ps[..|ps| - 1] ==> p in ps;
      QuietMoves(b, ps[..|ps| - 1]);
    }
  }

  lemma MoveMore(b: Place, ps: seq<Payload>, p: Payload)
    ensures MoveAll(b, ps + [p]) == Move(MoveAll(b, ps), p)
  {
    assert (ps + [p])[..|ps|] == ps;
  }

  lemma MoveOne(b: Place, p: Payload)
    ensures MoveAll(b, [p]) == Move(b, p)
  {
    MoveMore(b, [], p);
    assert [] + [p] == [p];
  }

  lemma {:induction false} HandlePlace(s: Session, m: Message)
    requires Numbered(s) && !s.stopped
    ensures var s' := Handle(s, m).0;
            Numbered(s') && Where(s') == MoveAll(Where(s), Emitted(s, m))
  {
    HandleSends(s, m);
    ScanNumbered(s.events, Emitted(s, m));
  }

  /** The stream so far is well bracketed, and its bracket is the actor's active turn. */
  predicate Bracketed(s: Session) {
    && Numbered(s)
    && !Where(s).Broken?
    && (!s.stopped ==>
          var b := Where(s);
          if s.active.None? then b.Outside?
          else
            var a := s.active.value;
            b.Inside? && b.turn == a.id && Before(b.stepId, b.revision, a.stepId, a.revision + 1))
  }

  lemma {:induction false} QuietKeepsBracketed(s: Session, m: Message)
    requires Bracketed(s) && !s.stopped && !MovesStep(s, m)
    ensures Bracketed(Handle(s, m).0)
  {
    HandlePlace(s, m);
    OthersAreQuiet(s, m);
    QuietMoves(Where(s), Emitted(s, m));
    OthersKeepStep(s, m);
  }

  lemma StreamedKeepsBracketed(s: Session, m: Message)
    requires Bracketed(s) && !s.stopped && m.Streamed?
    ensures Bracketed(Handle(s, m).0)
  {
    HandlePlace(s, m);
    if IsActive(s, m.turn) {
      MoveOne(Where(s), DeltaOf(s.active.value, m.isReasoning, m.delta));
    }
  }

  lemma StepEndedKeepsBracketed(s: Session, m: Message)
    requires Bracketed(s) && !s.stopped && m.StepEnded?
    ensures Bracketed(Handle(s, m).0)
  {
    HandlePlace(s, m);
    if IsActive(s, m.turn) && m.recorded {
      MoveOne(Where(s), StepNews(s.active.value, m.interrupted, m.content));
    }
  }

  lemma TurnDoneKeepsBracketed(s: Session, m: Message)
    requires Bracketed(s) && !s.stopped && m.TurnDone?
    ensures Bracketed(Handle(s, m).0)
  {
    HandlePlace(s, m);
    if IsActive(s, m.turn) {
      MoveOne(Where(s), Ending(m.turn, m.outcome));
    }
  }

  lemma {:induction false} StartKeepsBracketed(s: Session, m: Message)
    requires Bracketed(s) && !s.stopped && m.AskPrompt? && StartsTurn(s, m.prompt, m.world)
    ensures Bracketed(Handle(s, m).0)
  {
    HandlePlace(s, m);
    StartNews(s, m);
    QuietMoves(Where(s), Preamble(m.prompt, m.world));
    MoveMore(Where(s), Preamble(m.prompt, m.world), TurnStarted(m.world.turn));
  }

  lemma {:induction false} HandleKeepsBracketed(s: Session, m: Message)
    requires Bracketed(s)
    ensures Bracketed(Handle(s, m).0)
  {
    if !s.stopped {
      if m.Streamed? {
        StreamedKeepsBracketed(s, m);
      } else if m.StepEnded? {
        StepEndedKeepsBracketed(s, m);
      } else if m.TurnDone? {
        TurnDoneKeepsBracketed(s, m);
      } else if MovesStep(s, m) {
        StartKeepsBracketed(s, m);
      } else {
        QuietKeepsBracketed(s, m);
      }
    }
  }

  /** Over every run the broadcast is numbered without gaps and well bracketed by turns. */
  lemma {:induction false} RunsAreBracketed(life: Life, transcript: seq<Payload>, ms: seq<Message>)
    ensures Bracketed(Run(Init(life, transcript), ms))
  {
    if ms != [] {
      RunsAreBracketed(life, transcript, ms[..|ms| - 1]);
      HandleKeepsBracketed(Run(Init(life, transcript), ms[..|ms| - 1]), ms[|ms| - 1]);
    }
  }

  // ---------------------------------------------------------------- what the automaton means

  function Starts(events: seq<Event>, turn: TurnId): nat {
    if events == [] then 0
    else Starts(events[..|events| - 1], turn) + if events[|events| - 1].payload == TurnStarted(turn) then 1 else 0
  }

  function Ends(events: seq<Event>, turn: TurnId): nat {
    if events == [] then 0
    else
      var p := events[|events| - 1].payload;
      Ends(events[..|events| - 1], turn) + if IsTurnEnd(p) && p.turn == turn then 1 else 0
  }

  predicate IsBoundary(p: Payload) {
    p.TurnStarted? || IsTurnEnd(p)
  }

  lemma UnbrokenFront(events: seq<Event>, k: nat)
    requires !Scan(events).place.Broken? && k <= |events|
    ensures !Scan(events[..k]).place.Broken?
    decreases |events|
  {
    if k < |events| {
      var front := events[..|events| - 1];
      UnbrokenFront(front, k);
      assert front[..k] == events[..k];
    } else {
      assert events[..k] == events;
    }
  }

  lemma {:induction false} UnbrokenCheck(events: seq<Event>, k: nat)
    requires !Scan(events).place.Broken? && k < |events|
    ensures !Scan(events[..k]).place.Broken? && !Scan(events[..k + 1]).place.Broken?
    ensures Scan(events[..k + 1]) == Check(Scan(events[..k]), events[k])
  {
    UnbrokenFront(events, k);
    UnbrokenFront(events, k + 1);
    assert events[..k + 1][..k] == events[..k];
  }

  /** Sequence numbers are contiguous from 1. */
  lemma {:induction false} NumbersAreContiguous(events: seq<Event>, k: nat)
    requires !Scan(events).place.Broken? && k < |events|
    ensures events[k].seqNo == k + 1
  {
    UnbrokenCheck(events, k);
    if k > 0 {
      NumbersAreContiguous(events, k - 1);
      UnbrokenCheck(events, k - 1);
    }
  }

  /** A turn is ended as often as it is started, but for the one the stream is still inside. */
  lemma {:induction false} EndsMatchStarts(events: seq<Event>, turn: TurnId)
    requires !Scan(events).place.Broken?
    ensures var b := Scan(events).place;
            Ends(events, turn) + (if b.Inside? && b.turn == turn then 1 else 0) == Starts(events, turn)
  {
    if events != [] {
      UnbrokenCheck(events, |events| - 1);
      assert events[..|events| - 1 + 1] == events;
      EndsMatchStarts(events[..|events| - 1], turn);
    }
  }

  /** Inside a turn: its start lies before, and no boundary since. */
  lemma {:induction false} InsideHasStart(events: seq<Event>, k: nat) returns (j: nat)
    requires !Scan(events).place.Broken? && 0 < k <= |events| && Scan(events[..k]).place.Inside?
    ensures j < k && events[j].payload == TurnStarted(Scan(events[..k]).place.turn)
    ensures forall i :: j < i < k ==> !IsBoundary(events[i].payload)
    decreases k
  {
    UnbrokenCheck(events, k - 1);
    if events[k - 1].payload.TurnStarted? {
      j := k - 1;
    } else {
      j := InsideHasStart(events, k - 1);
    }
  }

  /** Every streamed delta lies after the start of its own turn, with no boundary in between. */
  lemma DeltasLieInside(events: seq<Event>, k: nat) returns (j: nat)
    requires !Scan(events).place.Broken? && k < |events| && IsDelta(events[k].payload)
    ensures j < k && events[j].payload == TurnStarted(events[k].payload.turn)
    ensures forall i :: j < i < k ==> !IsBoundary(events[i].payload)
  {
    UnbrokenCheck(events, k);
    j := InsideHasStart(events, k);
  }

  /** Within one bracket the place only moves forward. */
  lemma {:induction false} PlaceAdvances(events: seq<Event>, i: nat, k: nat)
    requires !Scan(events).place.Broken? && i < k <= |events| && IsDelta(events[i].payload)
    requires forall j :: i < j < k ==> !IsBoundary(events[j].payload)
    ensures var b := Scan(events[..k]).place;
            var p := events[i].payload;
            && b.Inside? && b.turn == p.turn
            && (p.stepId < b.stepId || (p.stepId == b.stepId && p.revision <= b.revision))
    decreases k
  {
    UnbrokenCheck(events, k - 1);
    if i < k - 1 {
      PlaceAdvances(events, i, k - 1);
    }
  }

  /** Two deltas of one bracket: step id and revision increase strictly, lexicographically. */
  lemma DeltasAdvance(events: seq<Event>, i: nat, k: nat)
    requires !Scan(events).place.Broken? && i < k < |events|
    requires IsDelta(events[i].payload) && IsDelta(events[k].payload)
    requires forall j :: i < j < k ==> !IsBoundary(events[j].payload)
    ensures events[i].payload.turn == events[k].payload.turn
    ensures Before(events[i].payload.stepId, events[i].payload.revision, events[k].payload.stepId, events[k].payload.revision)
  {
    PlaceAdvances(events, i, k);
    UnbrokenCheck(events, k);
  }

  // ---------------------------------------------------------------- one bracket per turn

  /** Turn ids are made fresh: no prompt reuses the id of a turn that was started before. */
  ghost predicate FreshTurns(s: Session, ms: seq<Message>) {
    forall k :: 0 <= k < |ms| && ms[k].AskPrompt? ==> Starts(Run(s, ms[..k]).events, ms[k].world.turn) == 0
  }

  function StartsIn(ps: seq<Payload>, turn: TurnId): nat {
    if ps == [] then 0
    else StartsIn(ps[..|ps| - 1], turn) + if ps[|ps| - 1] == TurnStarted(turn) then 1 else 0
  }

  lemma {:induction false} StartsNumbered(events: seq<Event>, last: nat, ps: seq<Payload>, turn: TurnId)
    ensures Starts(events + NumberFrom(last, ps), turn) == Starts(events, turn) + StartsIn(ps, turn)
    decreases |ps|
  {
    if ps == [] {
      assert events + NumberFrom(last, ps) == events;
    } else {
      var all := events + NumberFrom(last, ps);
      StartsNumbered(events, last, ps[..|ps| - 1], turn);
      assert all[..|all| - 1] == events + NumberFrom(last, ps[..|ps| - 1]);
    }
  }

  lemma {:induction false} NoStarts(ps: seq<Payload>, turn: TurnId)
    requires forall p :: p in ps ==> !p.TurnStarted?
    ensures StartsIn(ps, turn) == 0
  {
    if ps != [] {
      assert ps[|ps| - 1] in ps;
      assert forall p :: p in ps[..|ps| - 1] ==> p in ps;
      NoStarts(ps[..|ps| - 1], turn);
    }
  }

  /** Only a prompt that starts a turn broadcasts a start, and then one, of its own turn. */
  lemma StartsEmitted(s: Session, m: Message, turn: TurnId)
    ensures StartsIn(Emitted(s, m), turn)
         == if m.AskPrompt? && StartsTurn(s, m.prompt, m.world) && m.world.turn == turn then 1 else 0
  {
    var ps := Emitted(s, m);
    if m.AskPrompt? && StartsTurn(s, m.prompt, m.world) {
      StartNews(s, m);
      NoStarts(Preamble(m.prompt, m.world), turn);
      assert ps[..|ps| - 1] == Preamble(m.prompt, m.world);
    } else {
      if !MovesStep(s, m) {
        OthersAreQuiet(s, m);
      }
      NoStarts(ps, turn);
    }
  }

  /** Every turn is started at most once. */
  lemma {:induction false} TurnsStartOnce(s: Session, ms: seq<Message>, turn: TurnId)
    requires Starts(s.events, turn) <= 1 && FreshTurns(s, ms)
    ensures Starts(Run(s, ms).events, turn) <= 1
  {
    if ms != [] {
      var front, m := ms[..|ms| - 1], ms[|ms| - 1];
      assert FreshTurns(s, front) by {
        forall k | 0 <= k < |front| ensures front[..k] == ms[..k] {}
      }
      TurnsStartOnce(s, front, turn);
      StartsOnceMore(Run(s, front), m, turn);
    }
  }

  lemma {:induction false} StartsOnceMore(s: Session, m: Message, turn: TurnId)
    requires Starts(s.events, turn) <= 1
    requires m.AskPrompt? ==> Starts(s.events, m.world.turn) == 0
    ensures Starts(Handle(s, m).0.events, turn) <= 1
  {
    if !s.stopped {
      HandleSends(s, m);
      StartsNumbered(s.events, s.seqNo, Emitted(s, m), turn);
      StartsEmitted(s, m, turn);
    }
  }

  /**
   Each turn is ended at most once, and exactly once as soon as it was started and is no longer the
   active turn of a running actor.
   */
  lemma {:induction false} EachTurnEndsOnce(life: Life, transcript: seq<Payload>, ms: seq<Message>, turn: TurnId)
    requires FreshTurns(Init(life, transcript), ms)
    ensures var s := Run(Init(life, transcript), ms);
            && Ends(s.events, turn) <= Starts(s.events, turn) <= 1
            && (!s.stopped ==> Ends(s.events, turn) == Starts(s.events, turn) - if IsActive(s, turn) then 1 else 0)
  {
    var s := Run(Init(life, transcript), ms);
    TurnsStartOnce(Init(life, transcript), ms, turn);
    RunsAreBracketed(life, transcript, ms);
    EndsMatchStarts(s.events, turn);
  }

  // ---------------------------------------------------------------- expiry

  /**
   A timer deletes exactly the sessions that are due. A session in a turn is never due, and a timer
   that finds nothing due changes nothing.
   */
  lemma TimerDeletesOnlyDueSessions(s: Session, now: nat)
    requires Inv(s) && !s.stopped
    ensures var s' := Handle(s, TimerFired(now)).0;
            && (s'.deleted <==> s.life.deleteAfter.Some? && s.life.deleteAfter.value <= now)
            && (s'.deleted ==> s.active.None? && s.life.ephemeral)
            && (!s'.deleted ==> s' == s)
  {
  }

  /** How one message treats a deadline: it stays, goes, or is set by the end of the active turn. */
  lemma DeadlineStep(s: Session, m: Message)
    requires Inv(s) && !s.stopped
    ensures var now := Handle(s, m).0.life.deleteAfter;
            || now == s.life.deleteAfter
            || now.None?
            || (m.TurnDone? && IsActive(s, m.turn) && now == Some(m.now + EPHEMERAL_GRACE_MS))
  {
    if KeepsControl(m) {
      ContentKeepsControl(s, m);
    } else if m.AskPrompt? {
      PromptFrame(s, m.prompt, m.world);
    } else if m.TurnDone? || m.CompactionDone? || m.PermissionAsked? || m.TimerFired? {
      EventDeadline(s, m);
    } else {
      RequestDeadline(s, m);
    }
  }

  lemma EventDeadline(s: Session, m: Message)
    requires !s.stopped && (m.TurnDone? || m.CompactionDone? || m.PermissionAsked? || m.TimerFired?)
    ensures var now := Handle(s, m).0.life.deleteAfter;
            now == s.life.deleteAfter
            || (m.TurnDone? && IsActive(s, m.turn) && now == Some(m.now + EPHEMERAL_GRACE_MS))
  {
  }

  lemma RequestDeadline(s: Session, m: Message)
    requires m.AskCancel? || m.AskCompact? || m.AskKeep? || m.AskUnload? || m.AskRespond? || m.HandlesDropped?
    ensures var now := Handle(s, m).0.life.deleteAfter;
            now == s.life.deleteAfter || now.None?
  {
  }

  /** The deadline has been the same since message k. */
  ghost predicate SameDeadline(s: Session, ms: seq<Message>, k: nat) {
    forall j :: k <= j <= |ms| ==> Run(s, ms[..j]).life.deleteAfter == Run(s, ms).life.deleteAfter
  }

  lemma {:induction false} StillTheDeadline(s: Session, ms: seq<Message>, k: nat)
    requires ms != [] && k < |ms| && SameDeadline(s, ms[..|ms| - 1], k)
    requires Run(s, ms).life.deleteAfter == Run(s, ms[..|ms| - 1]).life.deleteAfter
    ensures SameDeadline(s, ms, k)
  {
    var front := ms[..|ms| - 1];
    forall j | k <= j <= |ms| ensures Run(s, ms[..j]).life.deleteAfter == Run(s, ms).life.deleteAfter {
      if j < |ms| {
        assert front[..j] == ms[..j];
      } else {
        assert ms[..j] == ms;
      }
    }
  }

  /** The k-th message ended a turn, a grace period before the deadline. */
  ghost predicate SetBy(s: Session, ms: seq<Message>, k: nat, deadline: nat)
    requires 0 < k <= |ms|
  {
    && ms[k - 1].TurnDone? && IsActive(Run(s, ms[..k - 1]), ms[k - 1].turn)
    && deadline == ms[k - 1].now + EPHEMERAL_GRACE_MS
  }

  lemma {:induction false} SetByMore(s: Session, ms: seq<Message>, k: nat, deadline: nat)
    requires 0 < k < |ms| && SetBy(s, ms[..|ms| - 1], k, deadline)
    ensures SetBy(s, ms, k, deadline)
  {
    assert ms[..|ms| - 1][..k - 1] == ms[..k - 1];
  }

  /**
   Over every run, a deadline is either the one the run began with, untouched, or it was set by the end of
   a turn, a grace period ahead, and has not been touched since.
   */
  lemma {:induction false} DeadlineHasACause(s: Session, ms: seq<Message>) returns (k: nat)
    requires Inv(s) && !Run(s, ms).stopped && Run(s, ms).life.deleteAfter.Some?
    ensures k <= |ms| && SameDeadline(s, ms, k)
    ensures k > 0 ==> SetBy(s, ms, k, Run(s, ms).life.deleteAfter.value)
  {
    if ms == [] {
      k := 0;
    } else {
      var front := ms[..|ms| - 1];
      RunKeepsInv(s, front);
      DeadlineStep(Run(s, front), ms[|ms| - 1]);
      if Run(s, ms).life.deleteAfter == Run(s, front).life.deleteAfter {
        k := DeadlineHasACause(s, front);
        StillTheDeadline(s, ms, k);
        if k > 0 {
          SetByMore(s, ms, k, Run(s, ms).life.deleteAfter.value);
        }
      } else {
        k := |ms|;
        assert ms[..k] == ms;
      }
    }
  }

  /** The j-th message is an alarm that finds the session idle, at a deadline that message k set or the run began with. */
  ghost predicate DueAt(s: Session, ms: seq<Message>, k: nat, j: nat)
    requires k <= j < |ms|
  {
    var at := Run(s, ms[..j]);
    && ms[j].TimerFired? && !at.stopped && at.active.None? && at.life.ephemeral && at.life.deleteAfter.Some?
    && at.life.deleteAfter.value <= ms[j].now
    && if k == 0 then s.life.deleteAfter == at.life.deleteAfter else SetBy(s, ms, k, at.life.deleteAfter.value)
  }

  lemma {:induction false} DueAtMore(s: Session, ms: seq<Message>, k: nat, j: nat)
    requires k <= j < |ms| - 1 && DueAt(s, ms[..|ms| - 1], k, j)
    ensures DueAt(s, ms, k, j)
  {
    assert ms[..|ms| - 1][..j] == ms[..j];
    if k > 0 {
      SetByMore(s, ms, k, Run(s, ms[..j]).life.deleteAfter.value);
    }
  }

  lemma {:induction false} DueNow(s: Session, ms: seq<Message>) returns (k: nat)
    requires ms != [] && Inv(s) && !Run(s, ms[..|ms| - 1]).deleted && Run(s, ms).deleted
    ensures k < |ms| && DueAt(s, ms, k, |ms| - 1)
  {
    var front := ms[..|ms| - 1];
    RunKeepsInv(s, front);
    OnlyAlarmsDelete(Run(s, front), ms[|ms| - 1]);
    k := DeadlineHasACause(s, front);
    if k == 0 {
      assert front[..0] == [];
    } else {
      SetByMore(s, ms, k, Run(s, front).life.deleteAfter.value);
    }
  }

  /**
   A session is deleted only by an alarm whose time has come: one grace period or more after a turn's end,
   or at the deadline the run began with, and with no turn active.
   */
  lemma {:induction false} DeletionWaitsForTheGrace(s: Session, ms: seq<Message>) returns (k: nat, j: nat)
    requires Inv(s) && !s.deleted && !s.stopped && Run(s, ms).deleted
    ensures k <= j < |ms| && DueAt(s, ms, k, j)
  {
    if Run(s, ms[..|ms| - 1]).deleted {
      k, j := DeletionWaitsForTheGrace(s, ms[..|ms| - 1]);
      DueAtMore(s, ms, k, j);
    } else {
      j := |ms| - 1;
      k := DueNow(s, ms);
    }
  }

  lemma OnlyAlarmsDelete(s: Session, m: Message)
    requires Inv(s) && !s.deleted && Handle(s, m).0.deleted
    ensures m.TimerFired? && !s.stopped && s.active.None? && s.life.ephemeral
    ensures s.life.deleteAfter.Some? && s.life.deleteAfter.value <= m.now
  {
    if KeepsControl(m) {
      ContentKeepsControl(s, m);
    }
  }

  /** A session that is not ephemeral, as every kept one, is never deleted by expiry. */
  lemma {:induction false} KeptSessionsAreNeverDeleted(s: Session, ms: seq<Message>)
    requires Inv(s) && !s.life.ephemeral && !s.deleted
    ensures !Run(s, ms).deleted && !Run(s, ms).life.ephemeral
  {
    if ms != [] {
      var s1, m := Run(s, ms[..|ms| - 1]), ms[|ms| - 1];
      KeptSessionsAreNeverDeleted(s, ms[..|ms| - 1]);
      RunKeepsInv(s, ms[..|ms| - 1]);
      KeptStep(s1, m);
    }
  }

  lemma KeptEnd(s: Session, m: Message)
    requires m.TurnDone? || m.CompactionDone? || m.AskUnload?
    requires !s.stopped && !s.life.ephemeral && !s.deleted
    ensures !Handle(s, m).0.deleted && !Handle(s, m).0.life.ephemeral
  {
  }

  lemma KeptStep(s: Session, m: Message)
    requires Inv(s) && !s.life.ephemeral && !s.deleted
    ensures !Handle(s, m).0.deleted && !Handle(s, m).0.life.ephemeral
  {
    if s.stopped {
    } else if KeepsControl(m) {
      ContentKeepsControl(s, m);
    } else if m.AskPrompt? {
      PromptFrame(s, m.prompt, m.world);
    } else if m.TurnDone? || m.CompactionDone? || m.AskUnload? {
      KeptEnd(s, m);
    }
  }

  /** Keeping a session is for good: no run after it, whatever its alarms, deletes it. */
  lemma {:induction false} KeepingIsForGood(s: Session, ms: seq<Message>)
    requires Inv(s) && !s.stopped
    ensures var (kept, r) := Handle(s, AskKeep(true));
            r.Kept? && !Run(kept, ms).deleted && !Run(kept, ms).life.ephemeral
  {
    HandleKeepsInv(s, AskKeep(true));
    KeptSessionsAreNeverDeleted(Handle(s, AskKeep(true)).0, ms);
  }

  /** The guard looks at turns only: a due session is deleted even while a manual compaction runs. */
  lemma ExpiryCanCutACompaction(id: nat, deadline: nat)
    ensures var s := Run(Init(Life(true, false, Some(deadline), None), []), [AskCompact(id, true, true, false, true)]);
            && s.compaction == Some(Compaction(id, false))
            && Handle(s, TimerFired(deadline)).0.deleted
  {
    var m := AskCompact(id, true, true, false, true);
    assert [m][..0] == [];
    assert Run(Init(Life(true, false, Some(deadline), None), []), [])
        == Init(Life(true, false, Some(deadline), None), []);
  }

  // ---------------------------------------------------------------- permissions

  /** Request ids are made fresh. */
  ghost predicate FreshRequests(s: Session, ms: seq<Message>) {
    forall k :: 0 <= k < |ms| && ms[k].PermissionAsked? ==> Run(s, ms[..k]).gate.Unseen(ms[k].request)
  }

  lemma {:induction false} RequestsAreDecidedOnce(s: Session, ms: seq<Message>)
    requires s.gate.DecidedOnce() && FreshRequests(s, ms)
    ensures Run(s, ms).gate.DecidedOnce()
  {
    if ms != [] {
      var front, m := ms[..|ms| - 1], ms[|ms| - 1];
      assert FreshRequests(s, front) by {
        forall k | 0 <= k < |front| ensures front[..k] == ms[..k] {}
      }
      RequestsAreDecidedOnce(s, front);
      DecidedOnceMore(Run(s, front), m);
    }
  }

  lemma RejectionSteps(s: Session, m: Message)
    requires !s.stopped && !KeepsControl(m) && !m.AskPrompt? && !m.PermissionAsked? && !m.AskRespond?
    ensures var g := Handle(s, m).0.gate;
            g == s.gate || exists r :: g == s.gate.Reject(r)
  {
    var g := Handle(s, m).0.gate;
    if m.AskCancel? {
      assert g == s.gate || g == s.gate.Reject(TurnWasCancelled);
    } else if m.TurnDone? {
      assert g == s.gate || g == s.gate.Reject(TurnWasFinished);
    } else if m.TimerFired? {
      assert g == s.gate || g == s.gate.Reject(SessionExpired);
    } else {
      assert g == s.gate || g == s.gate.Reject(SessionWasClosed);
    }
  }

  /** How one message changes the gate: not at all, or by one of the gate's own operations. */
  lemma GateSteps(s: Session, m: Message)
    requires !s.stopped
    ensures var g := Handle(s, m).0.gate;
            || g == s.gate
            || (exists r :: g == s.gate.Reject(r))
            || (m.PermissionAsked? && g == s.gate.Register(Pending(m.turn, m.request)) && IsActive(s, m.turn))
            || (m.PermissionAsked? && g == s.gate.Refuse(Pending(m.turn, m.request)) && !IsActive(s, m.turn))
            || (m.AskRespond? && g == s.gate.Respond(m.request, m.allowed))
  {
    if KeepsControl(m) {
      ContentKeepsControl(s, m);
    } else if m.AskPrompt? {
      PromptFrame(s, m.prompt, m.world);
    } else if !m.PermissionAsked? && !m.AskRespond? {
      RejectionSteps(s, m);
    }
  }

  lemma DecidedOnceMore(s: Session, m: Message)
    requires s.gate.DecidedOnce()
    requires m.PermissionAsked? ==> s.gate.Unseen(m.request)
    ensures Handle(s, m).0.gate.DecidedOnce()
  {
    if !s.stopped {
      GateSteps(s, m);
    }
  }

  /** An endpoint's answer that names another request, or comes when none waits, changes nothing. */
  lemma WrongAnswersChangeNothing(s: Session, request: RequestId, allowed: bool)
    requires !s.stopped
    ensures Handle(s, AskRespond(request, allowed)) == (s, Refused(PermissionNotFound))
       <==> s.gate.pending.None? || s.gate.pending.value.request != request
  {
  }

  /** Whatever takes a request off the gate decides it, and only a matching answer can allow it. */
  lemma {:induction false} LeavingTheGateDecides(s: Session, m: Message)
    requires Inv(s) && !s.stopped && s.gate.pending.Some?
    ensures var p := s.gate.pending.value;
            var g := Handle(s, m).0.gate;
            g.pending != Some(p) ==>
              && s.gate.decisions < g.decisions
              && var d := g.decisions[|s.gate.decisions|];
                 && d.turn == p.turn && d.request == p.request
                 && (d.verdict == Responded(true) <==> m == AskRespond(p.request, true))
                 && (d.verdict.Rejected? <==> !m.AskRespond?)
                 && IsActive(s, p.turn)
  {
    GateSteps(s, m);
  }

  /** Cancelling, finishing or closing the turn, and a newer request, all take the waiting one off. */
  lemma TurnEndsRejectTheWaiting(s: Session, m: Message)
    requires Inv(s) && !s.stopped && s.gate.pending.Some?
    requires || m == AskCancel(None) || m == AskCancel(Some(s.gate.pending.value.turn))
             || (m.TurnDone? && m.turn == s.gate.pending.value.turn)
             || m.AskUnload? || m.HandlesDropped?
             || (m.PermissionAsked? && m.turn == s.gate.pending.value.turn && m.request != s.gate.pending.value.request)
    ensures var p := s.gate.pending.value;
            var g := Handle(s, m).0.gate;
            && g.pending != Some(p) && s.gate.decisions < g.decisions
            && g.decisions[|s.gate.decisions|].request == p.request
            && g.decisions[|s.gate.decisions|].verdict.Rejected?
  {
    LeavingTheGateDecides(s, m);
  }

  /** Only a close, the last handle, an end it waited for, or expiry stops the actor. */
  lemma OnlyTheseStop(s: Session, m: Message)
    requires Inv(s) && !s.stopped && Handle(s, m).0.stopped
    ensures m.AskUnload? || m.HandlesDropped? || m.TurnDone? || m.CompactionDone? || m.TimerFired?
  {
    if KeepsControl(m) {
      ContentKeepsControl(s, m);
    } else if m.AskPrompt? {
      PromptFrame(s, m.prompt, m.world);
    }
  }

  /** Nothing runs any more, no timer is armed, and the request that waited, if one did, has been decided. */
  predicate NothingWaits(s: Session, s': Session) {
    && s'.active.None? && s'.compaction.None? && s'.life.timer.None? && s'.gate.pending.None?
    && (s.gate.pending.Some? ==>
          |s'.gate.decisions| == |s.gate.decisions| + 1
          && s'.gate.decisions[|s.gate.decisions|].request == s.gate.pending.value.request)
  }

  lemma TurnEndNothingWaits(s: Session, m: Message)
    requires m.TurnDone? && !s.stopped && Handle(s, m).0.stopped
    ensures NothingWaits(s, Handle(s, m).0)
  {
  }

  lemma CompactionEndNothingWaits(s: Session, m: Message)
    requires m.CompactionDone? && !s.stopped && Handle(s, m).0.stopped
    ensures NothingWaits(s, Handle(s, m).0)
  {
  }

  lemma CloseNothingWaits(s: Session, m: Message)
    requires (m.AskUnload? || m.HandlesDropped? || m.TimerFired?) && !s.stopped && Handle(s, m).0.stopped
    ensures NothingWaits(s, Handle(s, m).0)
  {
  }

  /** Whatever stops the actor leaves nothing running, no timer armed and no request undecided. */
  lemma {:induction false} NothingWaitsInTheEnd(s: Session, m: Message)
    requires Inv(s) && !s.stopped && Handle(s, m).0.stopped
    ensures NothingWaits(s, Handle(s, m).0)
  {
    OnlyTheseStop(s, m);
    if m.TurnDone? {
      TurnEndNothingWaits(s, m);
    } else if m.CompactionDone? {
      CompactionEndNothingWaits(s, m);
    } else {
      CloseNothingWaits(s, m);
    }
  }

  /** Over a whole run, a decision that allows was an accepted answer to that request in its turn. */
  lemma {:induction false} AllowedWasAnswered(s: Session, ms: seq<Message>, d: Decision) returns (k: nat)
    requires Inv(s) && s.gate.decisions == []
    requires d in Run(s, ms).gate.decisions && d.verdict == Responded(true)
    ensures k < |ms| && ms[k] == AskRespond(d.request, true)
    ensures var at := Run(s, ms[..k]);
            !at.stopped && at.gate.pending == Some(Pending(d.turn, d.request)) && IsActive(at, d.turn)
  {
    var n := |ms| - 1;
    var front := ms[..n];
    if d in Run(s, front).gate.decisions {
      k := AllowedWasAnswered(s, front, d);
      assert front[..k] == ms[..k];
    } else {
      RunKeepsInv(s, front);
      NewAllowance(Run(s, front), ms[n], d);
      k := n;
    }
  }

  lemma {:induction false} NewAllowance(s: Session, m: Message, d: Decision)
    requires Inv(s) && d !in s.gate.decisions && d in Handle(s, m).0.gate.decisions && d.verdict == Responded(true)
    ensures m == AskRespond(d.request, true) && !s.stopped
    ensures s.gate.pending == Some(Pending(d.turn, d.request)) && IsActive(s, d.turn)
  {
    assert !s.stopped;
    GateSteps(s, m);
  }
}
