/**
 The permission request a client shows as waiting. The snapshot carries it and broadcast events move it
 (crates/dwo-agent-service/src/session.rs). The gate drops a request without an event of its own when its
 turn is cancelled or finished, when the session closes, and when another request takes its place.
 */
module PermissionView {
  import opened Common
  import opened Events
  import opened Permission
  import opened SessionActor
  import opened SessionRuns
  import opened SessionEmissions
  import opened SessionHistory
  import opened SessionStream
  import opened Following

  /** The request a client shows after one more payload. */
  function Shown(v: Option<Pending>, p: Payload): Option<Pending> {
    match p
    case PermissionRequested(turn, request) => Some(Pending(turn, request))
    case PermissionResolved(turn, request, _) => if v == Some(Pending(turn, request)) then None else v
    case TurnCompleted(turn) => NotOf(v, turn)
    case TurnCancelled(turn) => NotOf(v, turn)
    case TurnFailed(turn) => NotOf(v, turn)
    case Closing => None
    case _ => v
  }

  function NotOf(v: Option<Pending>, turn: TurnId): Option<Pending> {
    if v.Some? && v.value.turn == turn then None else v
  }

  /** A cancel takes the waiting request away. No event says so. */
  predicate CancelsWaiting(s: Session, m: Message) {
    m.AskCancel? && s.gate.pending.Some? && (m.expected.None? || m.expected.value == s.gate.pending.value.turn)
  }

  /** A client that lagged is told: by the next request, by the end of the turn or by a close. */
  predicate Tells(s: Session, m: Message) {
    || ((m.PermissionAsked? || m.TurnDone?) && IsActive(s, m.turn))
    || (m.AskUnload? && !s.phase.ClosingDown?)
  }

  /** A cancel took a waiting request away and nothing has told the client since. */
  predicate Lags(s: Session, ms: seq<Message>) {
    ms != []
    && var s1, m := Run(s, ms[..|ms| - 1]), ms[|ms| - 1];
       CancelsWaiting(s1, m) || (Lags(s, ms[..|ms| - 1]) && !Tells(s1, m))
  }

  /** In step: the client shows the pending request. Lagging: it shows one of the active turn, and there is none. */
  predicate InView(v: Option<Pending>, s: Session, lags: bool) {
    !s.stopped ==>
      if lags then s.gate.pending.None? && v.Some? && IsActive(s, v.value.turn) else v == s.gate.pending
  }

  // ---------------------------------------------------------------- one message

  predicate MovesView(m: Message) {
    m.AskCancel? || m.AskUnload? || m.AskRespond? || m.TurnDone? || m.PermissionAsked?
  }

  lemma KindsWithoutView(v: Option<Pending>, m: Message, p: Payload)
    requires MayEmit(m, p) && !MovesView(m)
    ensures Shown(v, p) == v
  {
  }

  lemma {:induction false} OthersShowNothing(v: Option<Pending>, s: Session, m: Message)
    requires !MovesView(m)
    ensures TakeAll(Shown, v, Emitted(s, m)) == v
  {
    EmittedKinds(s, m);
    forall p | p in Emitted(s, m) ensures Shown(v, p) == v {
      KindsWithoutView(v, m, p);
    }
    TakeNothing(Shown, v, Emitted(s, m));
  }

  lemma PromptKeepsTurn(s: Session, p: Prompt, w: PromptWorld)
    requires s.active.Some?
    ensures var s' := HandlePrompt(s, p, w).0;
            s'.active.Some? && s'.active.value.id == s.active.value.id
  {
  }

  /** The other messages leave gate and active turn as they are, or stop the actor. */
  lemma {:induction false} OthersKeepGate(s: Session, m: Message)
    requires Inv(s) && !s.stopped && !MovesView(m)
    ensures var s' := Handle(s, m).0;
            !s'.stopped ==>
              s'.gate == s.gate
              && (s.active.Some? ==> s'.active.Some? && s'.active.value.id == s.active.value.id)
  {
    if KeepsControl(m) {
      ContentKeepsControl(s, m);
    } else if m.AskPrompt? {
      PromptFrame(s, m.prompt, m.world);
      if s.active.Some? {
        PromptKeepsTurn(s, m.prompt, m.world);
      }
    }
  }

  lemma CloseMovesView(v: Option<Pending>, s: Session, m: Message, lags: bool)
    requires Inv(s) && !s.stopped && InView(v, s, lags) && m.AskUnload?
    ensures InView(TakeAll(Shown, v, Emitted(s, m)), Handle(s, m).0, lags && !Tells(s, m))
  {
    TakeWhen(Shown, v, !s.phase.ClosingDown?, Closing);
  }

  lemma AnswerMovesView(v: Option<Pending>, s: Session, m: Message, lags: bool)
    requires Inv(s) && !s.stopped && InView(v, s, lags) && m.AskRespond?
    ensures InView(TakeAll(Shown, v, Emitted(s, m)), Handle(s, m).0, lags)
  {
    if s.gate.Answers(m.request) {
      TakeWhen(Shown, v, true, PermissionResolved(s.gate.pending.value.turn, m.request, m.allowed));
    }
  }

  lemma CancelMovesView(v: Option<Pending>, s: Session, m: Message, lags: bool)
    requires Inv(s) && !s.stopped && InView(v, s, lags) && m.AskCancel?
    ensures InView(TakeAll(Shown, v, Emitted(s, m)), Handle(s, m).0, CancelsWaiting(s, m) || lags)
  {
  }

  lemma EventMovesView(v: Option<Pending>, s: Session, m: Message, lags: bool)
    requires Inv(s) && !s.stopped && InView(v, s, lags)
    requires m.TurnDone? || m.PermissionAsked?
    ensures InView(TakeAll(Shown, v, Emitted(s, m)), Handle(s, m).0, lags && !Tells(s, m))
  {
    match m
    case TurnDone(turn, outcome, _, _) => TakeWhen(Shown, v, IsActive(s, turn), Ending(turn, outcome));
    case PermissionAsked(turn, request) => TakeWhen(Shown, v, IsActive(s, turn), PermissionRequested(turn, request));
  }

  lemma {:induction false} HandleMovesView(v: Option<Pending>, s: Session, m: Message, lags: bool)
    requires Inv(s) && !s.stopped && InView(v, s, lags)
    ensures InView(TakeAll(Shown, v, Emitted(s, m)), Handle(s, m).0, CancelsWaiting(s, m) || (lags && !Tells(s, m)))
  {
    if m.TurnDone? || m.PermissionAsked? {
      EventMovesView(v, s, m, lags);
    } else if m.AskUnload? {
      CloseMovesView(v, s, m, lags);
    } else if m.AskRespond? {
      AnswerMovesView(v, s, m, lags);
    } else if m.AskCancel? {
      CancelMovesView(v, s, m, lags);
    } else {
      OthersShowNothing(v, s, m);
      OthersKeepGate(s, m);
    }
  }

  // ---------------------------------------------------------------- whole runs

  lemma {:induction false} ViewOverRun(s: Session, ms: seq<Message>)
    requires Inv(s) && Handled(s, ms)
    ensures s.events <= Run(s, ms).events
    ensures InView(Follow(Shown, s.gate.pending, Run(s, ms).events[|s.events|..]), Run(s, ms), Lags(s, ms))
  {
    if ms == [] {
      assert s.events[|s.events|..] == [];
    } else {
      var front, m := ms[..|ms| - 1], ms[|ms| - 1];
      var s1 := Run(s, front);
      HandledFront(s, ms);
      ViewOverRun(s, front);
      RunKeepsInv(s, front);
      FollowNext(Shown, s.gate.pending, s, s1, m);
      HandleMovesView(Follow(Shown, s.gate.pending, s1.events[|s.events|..]), s1, m, Lags(s, front));
    }
  }

  /**
   Over every run: a client that starts from the snapshot and follows the broadcast shows the request that is
   pending exactly when no cancel has taken one away that nothing has told it of since. While it lags, no
   request is pending, the one it shows is of the turn that is still active, and any answer is refused.
   */
  lemma {:induction false} ClientSeesThePending(s: Session, ms: seq<Message>, cursor: Option<nat>, allowed: bool)
    requires Inv(s) && Handled(s, ms) && !Run(s, ms).stopped
    ensures s.events <= Run(s, ms).events
    ensures var now := Run(s, ms);
            var shown := Follow(Shown, Subscribe(s, cursor).pending, now.events[|s.events|..]);
            && (shown == now.gate.pending <==> !Lags(s, ms))
            && (Lags(s, ms) ==>
                  && now.gate.pending.None? && shown.Some? && IsActive(now, shown.value.turn)
                  && Handle(now, AskRespond(shown.value.request, allowed)) == (now, Refused(PermissionNotFound)))
  {
    ViewOverRun(s, ms);
    if Lags(s, ms) {
      var now := Run(s, ms);
      WrongAnswersChangeNothing(now, Follow(Shown, s.gate.pending, now.events[|s.events|..]).value.request, allowed);
    }
  }

  /** The lag occurs: a request, then a cancel. */
  lemma {:induction false} CancelLeavesTheRequestShown(s: Session, turn: TurnId, request: RequestId)
    requires !s.stopped && IsActive(s, turn)
    ensures Lags(s, [PermissionAsked(turn, request), AskCancel(Some(turn))])
  {
    var ask, cancel := PermissionAsked(turn, request), AskCancel(Some(turn));
    assert [ask, cancel][..1] == [ask] && [ask][..0] == [];
    assert Run(s, [ask]) == Handle(s, ask).0;
  }
}
