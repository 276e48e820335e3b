/**
 What the prompts of the ACP v1 adapter are answered (crates/dwo-acp/src/acp_v1.rs, run_prompt; lib.rs,
 complete_prompt), over every interleaving: each answer goes back to the event that gave it, and the answer of a
 prompt that waited to the one event that took its waiter.
 */
module PromptAnswers {
  import opened Common
  import opened DeferredCancel

  // ---------------------------------------------------------------- one event

  predicate AnsweredHere(command: Command) {
    command == Status || command == CancelTurn
  }

  /** A status or a cancel is answered on the spot, a resumption only checks for a turn, and the others are sent. */
  predicate OnItsWay(task: Task) {
    match task.stage
    case Local => AnsweredHere(task.command)
    case CheckingTurn => task.command == ResumeTurn
    case Enlisting => !AnsweredHere(task.command)
    case Submitting => !AnsweredHere(task.command)
    case Waiting => !AnsweredHere(task.command)
    case _ => true
  }

  predicate Sent(stage: Stage) {
    stage == Enlisting || stage == Submitting || stage == Waiting
  }

  datatype Taking = ByCompletion(completion: Completion) | ByCancel | Dropped

  predicate Registered(st: State, p: PromptId) {
    p in st.tasks && st.tasks[p].session in st.waiters && st.waiters[st.tasks[p].session] == p
  }

  /** The event completes the session of a registered prompt, tells it of a cancel, or removes its waiter. */
  function TakenBy(st: State, e: Event, p: PromptId): Option<Taking> {
    if !Registered(st, p) then None
    else
      var s := st.tasks[p].session;
      match e
      case Complete(s', c) => if s' == s then Some(ByCompletion(c)) else None
      case CancelProceeds(t, _) => if t in st.spawning && t.session == s then Some(ByCancel) else None
      case RepeatProceeds(s') => if s' in st.repeats && s' == s then Some(ByCancel) else None
      case Submitted(q, verdict) =>
        if At(st, q, Submitting) && verdict != Accepted && st.tasks[q].session == s then Some(Dropped) else None
      case _ => None
  }

  /** The mail is that of whoever took the waiter. */
  predicate Carries(mail: Mail, taking: Taking) {
    match taking
    case ByCompletion(c) => mail == Completed(c)
    case ByCancel => mail == Completed(Cancelled)
    case Dropped => mail == SenderDropped
  }

  /** What one event does to one prompt. */
  predicate TaskStep(st: State, e: Event, p: PromptId) {
    p in st.tasks ==>
      && p in After(st, e).tasks
      && var task, next := st.tasks[p], After(st, e).tasks[p];
         && next.session == task.session && next.command == task.command
         && (OnItsWay(task) ==> OnItsWay(next))
         && (Sent(next.stage) && !Sent(task.stage) && task.command == ResumeTurn ==> e == TurnChecked(p, Some(false)))
         && (match TakenBy(st, e, p)
             case None => next.mail == task.mail
             case Some(taking) => Carries(next.mail, taking))
  }

  lemma ArrivalStep(st: State, e: Event, p: PromptId)
    requires e.PromptArrives?
    ensures TaskStep(st, e, p) && After(st, e).answers == st.answers
    ensures p !in st.tasks ==>
              && (p in After(st, e).tasks <==> e.prompt == p)
              && (e.prompt == p ==>
                    var task := After(st, e).tasks[p];
                    task.session == e.session && task.command == e.command && task.mail == NoMail && task.stage == Preparing)
  {
  }

  /** What stays of a task when only its stage or its mail may differ. */
  predicate SamePrompt(task: Task, next: Task) {
    next.session == task.session && next.command == task.command
  }

  lemma RejectEffect(st: State, q: PromptId, a: Answer, p: PromptId)
    requires q in st.tasks
    ensures var b := Reject(st, q, a);
            && b.tasks.Keys == st.tasks.Keys && b.answers == st.answers + [(q, a)]
            && (p in st.tasks ==>
                  && SamePrompt(st.tasks[p], b.tasks[p]) && b.tasks[p].mail == st.tasks[p].mail
                  && b.tasks[p].stage == if p == q then Answered else st.tasks[p].stage)
  {
  }

  lemma AdvanceEffect(st: State, q: PromptId, stage: Stage, p: PromptId)
    requires q in st.tasks
    ensures var b := Advance(st, q, stage);
            && b.tasks.Keys == st.tasks.Keys && b.answers == st.answers
            && (p in st.tasks ==>
                  && SamePrompt(st.tasks[p], b.tasks[p]) && b.tasks[p].mail == st.tasks[p].mail
                  && b.tasks[p].stage == if p == q then stage else st.tasks[p].stage)
  {
  }

  lemma CompleteEffect(st: State, s: SessionId, c: Completion, p: PromptId)
    requires WaitersOk(st)
    ensures var b := CompletePrompt(st, s, c);
            && b.tasks.Keys == st.tasks.Keys && b.answers == st.answers
            && (p in st.tasks ==>
                  && SamePrompt(st.tasks[p], b.tasks[p]) && b.tasks[p].stage == st.tasks[p].stage
                  && b.tasks[p].mail == if Registered(st, p) && st.tasks[p].session == s then Completed(c) else st.tasks[p].mail)
  {
  }

  lemma UnlistEffect(st: State, s: SessionId, p: PromptId)
    requires WaitersOk(st)
    ensures var b := Unlist(st, s);
            && b.tasks.Keys == st.tasks.Keys && b.answers == st.answers
            && (p in st.tasks ==>
                  && SamePrompt(st.tasks[p], b.tasks[p]) && b.tasks[p].stage == st.tasks[p].stage
                  && b.tasks[p].mail == if Registered(st, p) && st.tasks[p].session == s then SenderDropped else st.tasks[p].mail)
  {
  }

  lemma PreparedStep(st: State, e: Event, p: PromptId)
    requires e.Prepared?
    ensures TaskStep(st, e, p) && st.answers <= After(st, e).answers && After(st, e).tasks.Keys == st.tasks.Keys
  {
    if e.prompt in st.tasks {
      RejectEffect(st, e.prompt, Error, p);
      AdvanceEffect(st, e.prompt, Activating, p);
    }
  }

  lemma ActivatedStep(st: State, e: Event, p: PromptId)
    requires e.Activated?
    ensures TaskStep(st, e, p) && st.answers <= After(st, e).answers && After(st, e).tasks.Keys == st.tasks.Keys
  {
    if e.prompt in st.tasks {
      RejectEffect(st, e.prompt, Error, p);
      AdvanceEffect(st, e.prompt, NextStage(st.tasks[e.prompt].command), p);
    }
  }

  lemma EnlistStep(st: State, e: Event, p: PromptId)
    requires e.Enlist?
    ensures TaskStep(st, e, p) && st.answers <= After(st, e).answers && After(st, e).tasks.Keys == st.tasks.Keys
  {
    if e.prompt in st.tasks {
      RejectEffect(st, e.prompt, Error, p);
      AdvanceEffect(st, e.prompt, Submitting, p);
    }
  }

  lemma LocalStep(st: State, e: Event, p: PromptId)
    requires e.LocalDone?
    ensures TaskStep(st, e, p) && st.answers <= After(st, e).answers && After(st, e).tasks.Keys == st.tasks.Keys
  {
  }

  lemma CheckStep(st: State, e: Event, p: PromptId)
    requires e.TurnChecked?
    ensures TaskStep(st, e, p) && st.answers <= After(st, e).answers && After(st, e).tasks.Keys == st.tasks.Keys
  {
  }

  lemma CollectStep(st: State, e: Event, p: PromptId)
    requires e.Collect?
    ensures TaskStep(st, e, p) && st.answers <= After(st, e).answers && After(st, e).tasks.Keys == st.tasks.Keys
  {
  }

  lemma SubmittedStep(st: State, e: Event, p: PromptId)
    requires WaitersOk(st) && e.Submitted?
    ensures TaskStep(st, e, p) && st.answers <= After(st, e).answers && After(st, e).tasks.Keys == st.tasks.Keys
  {
    if At(st, e.prompt, Submitting) && e.verdict != Accepted {
      UnlistEffect(st, st.tasks[e.prompt].session, p);
      RejectEffect(Unlist(st, st.tasks[e.prompt].session), e.prompt,
                   if e.verdict == Refused then Stopped(EndTurn) else Error, p);
    }
  }

  lemma CompleteStep(st: State, e: Event, p: PromptId)
    requires WaitersOk(st) && e.Complete?
    ensures TaskStep(st, e, p) && After(st, e).answers == st.answers && After(st, e).tasks.Keys == st.tasks.Keys
  {
    CompleteEffect(st, e.session, e.completion, p);
  }

  lemma ProceedStep(st: State, e: Event, p: PromptId)
    requires WaitersOk(st) && e.CancelProceeds?
    ensures TaskStep(st, e, p) && After(st, e).answers == st.answers && After(st, e).tasks.Keys == st.tasks.Keys
  {
    CompleteEffect(st, e.token.session, Cancelled, p);
  }

  lemma RepeatStep(st: State, e: Event, p: PromptId)
    requires WaitersOk(st) && e.RepeatProceeds?
    ensures TaskStep(st, e, p) && After(st, e).answers == st.answers && After(st, e).tasks.Keys == st.tasks.Keys
  {
    CompleteEffect(st, e.session, Cancelled, p);
  }

  lemma TimerStep(st: State, e: Event, p: PromptId)
    requires e.CancelArrives? || e.TimerElapses? || e.TimerSeesCancel?
    ensures TaskStep(st, e, p) && After(st, e).answers == st.answers && After(st, e).tasks == st.tasks
  {
  }

  lemma {:induction false} EveryStep(st: State, e: Event, p: PromptId)
    requires WaitersOk(st)
    ensures TaskStep(st, e, p) && st.answers <= After(st, e).answers
    ensures !e.PromptArrives? ==> After(st, e).tasks.Keys == st.tasks.Keys
  {
    if e.PromptArrives? {
      ArrivalStep(st, e, p);
    } else if e.Prepared? {
      PreparedStep(st, e, p);
    } else if e.Activated? {
      ActivatedStep(st, e, p);
    } else if e.Enlist? {
      EnlistStep(st, e, p);
    } else if e.LocalDone? {
      LocalStep(st, e, p);
    } else if e.TurnChecked? {
      CheckStep(st, e, p);
    } else if e.Collect? {
      CollectStep(st, e, p);
    } else if e.Submitted? {
      SubmittedStep(st, e, p);
    } else if e.CancelProceeds? {
      ProceedStep(st, e, p);
    } else if e.RepeatProceeds? {
      RepeatStep(st, e, p);
    } else if e.Complete? {
      CompleteStep(st, e, p);
    } else {
      TimerStep(st, e, p);
    }
  }

  // ---------------------------------------------------------------- prompts as they arrived

  /** The session and command a prompt arrived with. */
  function Arrival(events: seq<Event>, p: PromptId): Option<(SessionId, Command)> {
    if events == [] then None
    else
      var before := Arrival(events[..|events| - 1], p);
      match events[|events| - 1]
      case PromptArrives(q, s, command) => if q == p && before.None? then Some((s, command)) else before
      case _ => before
  }

  lemma {:induction false} TasksAreTheirPrompts(events: seq<Event>, p: PromptId)
    ensures var st := Run(events);
            && (p in st.tasks <==> Arrival(events, p).Some?)
            && (p in st.tasks ==> Arrival(events, p) == Some((st.tasks[p].session, st.tasks[p].command)))
  {
    if events != [] {
      var front, e := events[..|events| - 1], events[|events| - 1];
      TasksAreTheirPrompts(front, p);
      RunsKeepWaiters(front);
      EveryStep(Run(front), e, p);
      if e.PromptArrives? {
        ArrivalStep(Run(front), e, p);
      }
    }
  }

  // ---------------------------------------------------------------- which way a prompt goes

  /** A resumption that was sent found no turn running. */
  predicate FoundIdle(events: seq<Event>, p: PromptId) {
    TurnChecked(p, Some(false)) in events
  }

  lemma {:induction false} EveryPromptIsOnItsWay(events: seq<Event>, p: PromptId)
    requires p in Run(events).tasks
    ensures var task := Run(events).tasks[p];
            && OnItsWay(task)
            && (Sent(task.stage) && task.command == ResumeTurn ==> FoundIdle(events, p))
  {
    var front, e := events[..|events| - 1], events[|events| - 1];
    var st := Run(front);
    RunsKeepWaiters(front);
    EveryStep(st, e, p);
    assert events == front + [e];
    if p in st.tasks {
      EveryPromptIsOnItsWay(front, p);
    } else {
      ArrivalStep(st, e, p);
    }
  }

  // ---------------------------------------------------------------- who took the waiter

  predicate TakenAt(events: seq<Event>, k: nat, p: PromptId) {
    k < |events| && TakenBy(Run(events[..k]), events[k], p).Some?
  }

  function TakingAt(events: seq<Event>, k: nat, p: PromptId): Taking
    requires TakenAt(events, k, p)
  {
    TakenBy(Run(events[..k]), events[k], p).value
  }

  lemma TakenFront(events: seq<Event>, k: nat, p: PromptId)
    requires k < |events| - 1
    ensures TakenAt(events[..|events| - 1], k, p) <==> TakenAt(events, k, p)
    ensures TakenAt(events, k, p) ==> TakingAt(events[..|events| - 1], k, p) == TakingAt(events, k, p)
  {
    assert events[..|events| - 1][..k] == events[..k];
  }

  /** Once its waiter is taken a prompt has mail. */
  lemma {:induction false} TakenHasMail(events: seq<Event>, k: nat, p: PromptId)
    requires TakenAt(events, k, p)
    ensures p in Run(events).tasks && Run(events).tasks[p].mail != NoMail
    decreases |events|
  {
    var front, e := events[..|events| - 1], events[|events| - 1];
    RunsKeepWaiters(front);
    if k < |front| {
      TakenFront(events, k, p);
      TakenHasMail(front, k, p);
    }
    EveryStep(Run(front), e, p);
  }

  /** The k-th event took the waiter, and no other did. */
  ghost predicate OnlyTakenAt(events: seq<Event>, k: nat, p: PromptId) {
    TakenAt(events, k, p) && forall j: nat :: TakenAt(events, j, p) ==> j == k
  }

  lemma {:induction false} TakenNow(front: seq<Event>, e: Event, p: PromptId)
    requires TakenBy(Run(front), e, p).Some?
    ensures OnlyTakenAt(front + [e], |front|, p) && TakingAt(front + [e], |front|, p) == TakenBy(Run(front), e, p).value
  {
    var events := front + [e];
    assert events[..|front|] == front;
    RunsKeepWaiters(front);
    assert WaiterOk(Run(front), p);
    forall j: nat | TakenAt(events, j, p) ensures j == |front| {
      if j < |front| {
        TakenFront(events, j, p);
        TakenHasMail(front, j, p);
      }
    }
  }

  lemma {:induction false} TakenBefore(front: seq<Event>, e: Event, k: nat, p: PromptId)
    requires TakenBy(Run(front), e, p).None? && OnlyTakenAt(front, k, p)
    ensures OnlyTakenAt(front + [e], k, p) && TakingAt(front + [e], k, p) == TakingAt(front, k, p)
  {
    var events := front + [e];
    assert events[..|front|] == front && events[..|events| - 1] == front;
    TakenFront(events, k, p);
    forall j: nat | TakenAt(events, j, p) ensures j == k {
      if j < |front| {
        TakenFront(events, j, p);
      }
    }
  }

  /** A prompt has mail because one event, and only one, took its waiter, and the mail is that event's. */
  lemma {:induction false} MailHasItsCause(events: seq<Event>, p: PromptId) returns (k: nat)
    requires p in Run(events).tasks && Run(events).tasks[p].mail != NoMail
    ensures OnlyTakenAt(events, k, p) && Carries(Run(events).tasks[p].mail, TakingAt(events, k, p))
    decreases |events|
  {
    var front, e := events[..|events| - 1], events[|events| - 1];
    assert events == front + [e];
    RunsKeepWaiters(front);
    EveryStep(Run(front), e, p);
    if TakenBy(Run(front), e, p).Some? {
      k := |front|;
      TakenNow(front, e, p);
    } else {
      if p !in Run(front).tasks {
        ArrivalStep(Run(front), e, p);
      }
      k := MailHasItsCause(front, p);
      TakenBefore(front, e, k, p);
    }
  }

  // ---------------------------------------------------------------- the answers

  /** The event answers the prompt, and with this, when it does not wait for a completion. */
  predicate AnswersAtOnce(e: Event, p: PromptId, command: Command, a: Answer) {
    match e
    case Prepared(q, ok) => q == p && !ok && a == Error
    case Activated(q, ok) => q == p && !ok && a == Error
    case Enlist(q) => q == p && a == Error
    case LocalDone(q, ok) =>
      && q == p && AnsweredHere(command) && (a == Error <==> !ok)
      && (a == Stopped(Cancelled) <==> ok && command == CancelTurn)
      && (a == Stopped(EndTurn) <==> ok && command == Status)
    case TurnChecked(q, busy) =>
      q == p && command == ResumeTurn && (a == Error <==> busy.None?) && (a == Stopped(EndTurn) <==> busy.Some? && busy.value)
    case Submitted(q, verdict) =>
      && q == p && !AnsweredHere(command)
      && (a == Stopped(EndTurn) <==> verdict == Refused) && (a == Error <==> verdict == Broken)
    case _ => false
  }

  /** What a prompt that waited is told by what took its waiter. */
  predicate TellsOf(a: Answer, taking: Taking) {
    && (a == Stopped(Cancelled) <==> taking == ByCancel || taking == ByCompletion(Cancelled))
    && (a == Stopped(EndTurn) <==> taking == ByCompletion(EndTurn))
    && (a == Error <==> taking == Dropped || taking == ByCompletion(Failed))
  }

  /** The event adds this answer. */
  predicate Adds(st: State, e: Event, p: PromptId, a: Answer) {
    After(st, e).answers == st.answers + [(p, a)]
  }

  lemma AtOnceStep(st: State, e: Event)
    requires !e.Collect? && (forall p :: p in st.tasks ==> OnItsWay(st.tasks[p]))
    ensures After(st, e).answers != st.answers ==>
              && (e.Prepared? || e.Activated? || e.Enlist? || e.LocalDone? || e.TurnChecked? || e.Submitted?)
              && e.prompt in st.tasks
              && exists a :: Adds(st, e, e.prompt, a) && AnswersAtOnce(e, e.prompt, st.tasks[e.prompt].command, a)
  {
    if e.Prepared? || e.Activated? || e.Enlist? {
      if e.prompt in st.tasks {
        var b := Reject(st, e.prompt, Error);
        assert After(st, e).answers != st.answers ==> Adds(st, e, e.prompt, Error);
      }
    } else if e.Submitted? {
      SubmittedAnswers(st, e.prompt, e.verdict);
    } else if e.LocalDone? {
      LocalAnswers(st, e.prompt, e.ok);
    } else if e.TurnChecked? {
      CheckAnswers(st, e.prompt, e.busy);
    }
  }

  lemma SubmittedAnswers(st: State, p: PromptId, verdict: Verdict)
    requires At(st, p, Submitting) ==> OnItsWay(st.tasks[p])
    ensures var e := Submitted(p, verdict);
            if At(st, p, Submitting) && verdict != Accepted then
              exists a :: Adds(st, e, p, a) && AnswersAtOnce(e, p, st.tasks[p].command, a)
            else After(st, e).answers == st.answers
  {
    if At(st, p, Submitting) && verdict != Accepted {
      assert Adds(st, Submitted(p, verdict), p, if verdict == Refused then Stopped(EndTurn) else Error);
    }
  }

  lemma LocalAnswers(st: State, p: PromptId, ok: bool)
    requires At(st, p, Local) ==> OnItsWay(st.tasks[p])
    ensures var e := LocalDone(p, ok);
            if At(st, p, Local) then
              exists a :: Adds(st, e, p, a) && AnswersAtOnce(e, p, st.tasks[p].command, a)
            else After(st, e).answers == st.answers
  {
    if At(st, p, Local) {
      assert Adds(st, LocalDone(p, ok), p, LocalAnswer(st.tasks[p].command, ok));
    }
  }

  lemma CheckAnswers(st: State, p: PromptId, busy: Option<bool>)
    requires At(st, p, CheckingTurn) ==> OnItsWay(st.tasks[p])
    ensures var e := TurnChecked(p, busy);
            if At(st, p, CheckingTurn) && busy != Some(false) then
              exists a :: Adds(st, e, p, a) && AnswersAtOnce(e, p, st.tasks[p].command, a)
            else After(st, e).answers == st.answers
  {
    if At(st, p, CheckingTurn) && busy != Some(false) {
      var a := if busy.None? then Error else Stopped(EndTurn);
      assert Adds(st, TurnChecked(p, busy), p, a) && AnswersAtOnce(TurnChecked(p, busy), p, st.tasks[p].command, a);
    }
  }

  /** The prompt waited, and the k-th event took its waiter, and no other did. */
  ghost predicate WaitedFor(events: seq<Event>, k: nat, p: PromptId, a: Answer) {
    OnlyTakenAt(events, k, p) && TellsOf(a, TakingAt(events, k, p))
  }

  /** The j-th event gave the answer: at once, or because an event before it took the waiter. */
  ghost predicate GivenAt(events: seq<Event>, j: nat, p: PromptId, a: Answer) {
    && j < |events| && Arrival(events[..j], p).Some?
    && var command := Arrival(events[..j], p).value.1;
       if events[j] == Collect(p) then
         !AnsweredHere(command) && exists k: nat :: WaitedFor(events[..j], k, p, a)
       else AnswersAtOnce(events[j], p, command, a)
  }

  lemma {:induction false} WasWaitedFor(events: seq<Event>, p: PromptId)
    requires p in Run(events).tasks && Run(events).tasks[p].mail != NoMail
    ensures exists k: nat :: WaitedFor(events, k, p, MailAnswer(Run(events).tasks[p].mail))
  {
    var k := MailHasItsCause(events, p);
    assert WaitedFor(events, k, p, MailAnswer(Run(events).tasks[p].mail));
  }

  lemma {:induction false} CollectedAnswer(events: seq<Event>, p: PromptId) returns (a: Answer)
    requires At(Run(events), p, Waiting) && Run(events).tasks[p].mail != NoMail
    ensures Adds(Run(events), Collect(p), p, a)
    ensures GivenAt(events + [Collect(p)], |events|, p, a)
  {
    a := MailAnswer(Run(events).tasks[p].mail);
    WasWaitedFor(events, p);
    TasksAreTheirPrompts(events, p);
    EveryPromptIsOnItsWay(events, p);
    var longer := events + [Collect(p)];
    assert longer[..|events|] == events && longer[|events|] == Collect(p);
  }

  lemma {:induction false} AnswerAtOnce(events: seq<Event>, e: Event) returns (a: Answer)
    requires !e.Collect? && After(Run(events), e).answers != Run(events).answers
    ensures (e.Prepared? || e.Activated? || e.Enlist? || e.LocalDone? || e.TurnChecked? || e.Submitted?)
            && Adds(Run(events), e, e.prompt, a) && GivenAt(events + [e], |events|, e.prompt, a)
  {
    var st := Run(events);
    forall p | p in st.tasks ensures OnItsWay(st.tasks[p]) {
      EveryPromptIsOnItsWay(events, p);
    }
    AtOnceStep(st, e);
    a :| Adds(st, e, e.prompt, a) && AnswersAtOnce(e, e.prompt, st.tasks[e.prompt].command, a);
    TasksAreTheirPrompts(events, e.prompt);
    assert (events + [e])[..|events|] == events;
  }

  /**
   Over every interleaving, every answer has its cause. A prompt that waited was told cancelled exactly if a cancel
   that went on, or a cancelled completion, took its waiter, end of turn exactly if a completed one did, and an
   error exactly if a failed one did or its waiter was removed; and one event only can take it. Any other prompt got
   the answer of its preparation, its registration, its command, its turn check or the daemon's verdict.
   */
  lemma {:induction false} EveryAnswerHasItsCause(events: seq<Event>, i: nat) returns (j: nat)
    requires i < |Run(events).answers|
    ensures var (p, a) := Run(events).answers[i];
            && GivenAt(events, j, p, a)
            && |Run(events[..j]).answers| == i
    decreases |events|
  {
    var front, e := events[..|events| - 1], events[|events| - 1];
    var st := Run(front);
    assert front + [e] == events;
    if i < |st.answers| {
      j := EveryAnswerHasItsCause(front, i);
      RunsKeepWaiters(front);
      EveryStep(st, e, 0);
      assert front[..j] == events[..j];
    } else {
      j := |front|;
      if e.Collect? {
        var a := CollectedAnswer(front, e.prompt);
      } else {
        var a := AnswerAtOnce(front, e);
      }
    }
  }

  // ---------------------------------------------------------------- cancels reach the waiting prompt

  /** A cancel that arrives is taken up: as a new deferred one, or as one that only has the prompt to tell. */
  lemma CancelsAreTakenUp(st: State, s: SessionId)
    requires CancelsOk(st)
    ensures var b := After(st, CancelArrives(s));
            if s in st.pending then b == st.(repeats := st.repeats[s := st.repeats[s] + 1])
            else s in b.pending && b.pending[s] !in st.issued && b.pending[s].session == s
                 && b.spawning == st.spawning + {b.pending[s]} && b.repeats == st.repeats
  {
    assert TokenOk(st, Token(s, st.next));
  }

  /** And whenever either goes on, the prompt that waits on its session is told that it was cancelled. */
  lemma CancelsThatGoOnTell(st: State, t: Token, spawned: bool, p: PromptId)
    requires WaitersOk(st) && Registered(st, p) && st.tasks[p].session == t.session
    ensures t in st.spawning ==>
              var b := After(st, CancelProceeds(t, spawned));
              p in b.tasks && b.tasks[p].mail == Completed(Cancelled) && !Registered(b, p)
    ensures t.session in st.repeats ==>
              var b := After(st, RepeatProceeds(t.session));
              p in b.tasks && b.tasks[p].mail == Completed(Cancelled) && !Registered(b, p)
              && b.repeats == st.repeats[t.session := st.repeats[t.session] - 1]
  {
  }
}
