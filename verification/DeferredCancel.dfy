/**
 The "send now" protocol of the ACP v1 adapter (crates/dwo-acp/src/lib.rs and acp_v1.rs). A cancel from the
 client is held back for a grace period: a prompt that follows replaces it, a local command drops it, and
 only when nothing follows, or the prompt is rejected, does it go to the daemon. The adapter's tasks
 interleave at their await points, so the protocol is a state machine whose events are the stretches
 between them, in any order.
 */
module DeferredCancel {
  import opened Common

  type SessionId = nat
  type PromptId = nat

  /** One deferred cancel: an Arc<CancellationToken>, with the session it was made for. */
  datatype Token = Token(session: SessionId, serial: nat)

  datatype Command = Plain | Status | CancelTurn | ResumeTurn | Compact | Fork

  datatype Completion = EndTurn | Cancelled | Failed

  /** What the client is told: a stop reason, or an error. */
  datatype Answer = Stopped(completion: Completion) | Error

  /** The receiving end of a prompt's completion channel. */
  datatype Mail = NoMail | Completed(completion: Completion) | SenderDropped

  datatype Stage = Preparing | Activating | Local | CheckingTurn | Enlisting | Submitting | Waiting | Answered

  /** One run_prompt; `held` is the cancel it must forward if it is rejected. */
  datatype Task = Task(session: SessionId, command: Command, held: Option<Token>, stage: Stage, mail: Mail)

  datatype Outcome = SentByTimer | DroppedByCommand | Replaced | Forwarded | Unsent

  /** What became of a cancel. */
  datatype Fate = Fate(token: Token, outcome: Outcome)

  datatype State = State(
    pending: map<SessionId, Token>,        // PendingCancels
    next: nat,
    spawning: set<Token>,                  // defer_cancel_v1 between scheduling and spawning
    repeats: multiset<SessionId>,          // defer_cancel_v1 that found a cancel pending, before it goes on
    timers: set<Token>,                    // spawned timers
    cancelled: set<Token>,                 // tokens whose cancel() was called
    tasks: map<PromptId, Task>,
    waiters: map<SessionId, PromptId>,     // prompt_waiters
    daemonCancels: nat,                    // session.cancel requests
    issued: set<Token>,                    // history: every cancel ever deferred,
    fates: seq<Fate>,                      // what became of them,
    answers: seq<(PromptId, Answer)>)      // and every response given

  const START: State := State(map[], 0, {}, multiset{}, {}, {}, map[], map[], 0, {}, [], [])

  datatype Verdict = Accepted | Refused | Broken

  datatype Event =
    | CancelArrives(session: SessionId)
    | CancelProceeds(token: Token, spawned: bool)
    | RepeatProceeds(session: SessionId)
    | TimerElapses(token: Token)
    | TimerSeesCancel(token: Token)
    | PromptArrives(prompt: PromptId, session: SessionId, command: Command)
    | Prepared(prompt: PromptId, ok: bool)
    | Activated(prompt: PromptId, ok: bool)
    | LocalDone(prompt: PromptId, ok: bool)
    | TurnChecked(prompt: PromptId, busy: Option<bool>)
    | Enlist(prompt: PromptId)
    | Submitted(prompt: PromptId, verdict: Verdict)
    | Complete(session: SessionId, completion: Completion)
    | Collect(prompt: PromptId)

  // ---------------------------------------------------------------- pending cancels

  predicate IsPending(st: State, t: Token) {
    t.session in st.pending && st.pending[t.session] == t
  }

  function Resolve(st: State, t: Token, o: Outcome): (b: State)
    ensures b.pending == st.pending
  {
    st.(fates := st.fates + [Fate(t, o)])
  }

  /** PendingCancels::finish: only the very cancel that was scheduled is removed. */
  function Finish(st: State, t: Token): State {
    if IsPending(st, t) then st.(pending := st.pending - {t.session}) else st
  }

  // ---------------------------------------------------------------- prompts

  /** complete_prompt */
  function CompletePrompt(st: State, s: SessionId, c: Completion): (b: State)
    ensures b.pending == st.pending
  {
    if s in st.waiters && st.waiters[s] in st.tasks then
      var p := st.waiters[s];
      st.(waiters := st.waiters - {s}, tasks := st.tasks[p := st.tasks[p].(mail := Completed(c))])
    else st
  }

  /** Removing the waiter of a session drops its sender, whosever it is. */
  function Unlist(st: State, s: SessionId): (b: State)
    ensures b.pending == st.pending
  {
    if s in st.waiters && st.waiters[s] in st.tasks then
      var p := st.waiters[s];
      st.(waiters := st.waiters - {s}, tasks := st.tasks[p := st.tasks[p].(mail := SenderDropped)])
    else st
  }

  function AnswerPrompt(st: State, p: PromptId, a: Answer): (b: State)
    requires p in st.tasks
    ensures b.pending == st.pending
  {
    st.(tasks := st.tasks[p := st.tasks[p].(stage := Answered)], answers := st.answers + [(p, a)])
  }

  /** forward_rejected_replacement, then the response. */
  function Reject(st: State, p: PromptId, a: Answer): (b: State)
    requires p in st.tasks
    ensures b.pending == st.pending
  {
    var task := st.tasks[p];
    var st1 :=
      if task.held.Some? then
        Resolve(st, task.held.value, Forwarded).(daemonCancels := st.daemonCancels + 1,
                                                 tasks := st.tasks[p := task.(held := None)])
      else st;
    AnswerPrompt(st1, p, a)
  }

  function Advance(st: State, p: PromptId, stage: Stage): (b: State)
    requires p in st.tasks
    ensures b.pending == st.pending
  {
    st.(tasks := st.tasks[p := st.tasks[p].(stage := stage)])
  }

  predicate At(st: State, p: PromptId, stage: Stage) {
    p in st.tasks && st.tasks[p].stage == stage
  }

  // ---------------------------------------------------------------- the steps

  /** A cancel is scheduled unless one is pending; then only the waiting prompt is still to be told. */
  function OnCancelArrives(st: State, s: SessionId): State {
    if s in st.pending then st.(repeats := st.repeats + multiset{s})
    else
      var t := Token(s, st.next);
      st.(pending := st.pending[s := t], next := st.next + 1, issued := st.issued + {t},
          spawning := st.spawning + {t})
  }

  function OnCancelProceeds(st: State, t: Token, spawned: bool): State {
    if t !in st.spawning then st
    else
      var st1 := CompletePrompt(st, t.session, Cancelled).(spawning := st.spawning - {t});
      if spawned then st1.(timers := st1.timers + {t})
      else if IsPending(st1, t) then Resolve(Finish(st1, t), t, Unsent)
      else st1
  }

  function OnRepeatProceeds(st: State, s: SessionId): (b: State)
    ensures b.pending == st.pending
  {
    if s !in st.repeats then st
    else CompletePrompt(st, s, Cancelled).(repeats := st.repeats - multiset{s})
  }

  function OnTimerElapses(st: State, t: Token): State {
    if t !in st.timers then st
    else
      var st1 := st.(timers := st.timers - {t});
      if IsPending(st1, t) then
        Resolve(Finish(st1, t), t, SentByTimer).(daemonCancels := st.daemonCancels + 1)
      else st1
  }

  /** PendingCancels::consume, at the start of a prompt. */
  function OnPromptArrives(st: State, p: PromptId, s: SessionId, command: Command): State {
    if p in st.tasks then st
    else if s !in st.pending then
      st.(tasks := st.tasks[p := Task(s, command, None, Preparing, NoMail)])
    else
      var t := st.pending[s];
      var st1 := st.(pending := st.pending - {s}, cancelled := st.cancelled + {t});
      if command == Plain then st1.(tasks := st.tasks[p := Task(s, command, Some(t), Preparing, NoMail)])
      else Resolve(st1, t, DroppedByCommand)
           .(tasks := st.tasks[p := Task(s, command, None, Preparing, NoMail)])
  }

  function OnSubmitted(st: State, p: PromptId, verdict: Verdict): (b: State)
    ensures b.pending == st.pending
  {
    if !At(st, p, Submitting) then st
    else
      var task := st.tasks[p];
      if verdict == Accepted then
        var st1 := if task.held.Some? then Resolve(st, task.held.value, Replaced) else st;
        st1.(tasks := st.tasks[p := task.(held := None, stage := Waiting)])
      else Reject(Unlist(st, task.session), p, if verdict == Refused then Stopped(EndTurn) else Error)
  }

  function OnPrepared(st: State, p: PromptId, ok: bool): (b: State)
    ensures b.pending == st.pending
  {
    if !At(st, p, Preparing) then st else if ok then Advance(st, p, Activating) else Reject(st, p, Error)
  }

  /** Which way a prompt goes once its observer runs. */
  function NextStage(command: Command): Stage {
    match command
    case Status => Local
    case CancelTurn => Local
    case ResumeTurn => CheckingTurn
    case _ => Enlisting
  }

  function OnActivated(st: State, p: PromptId, ok: bool): (b: State)
    ensures b.pending == st.pending
  {
    if !At(st, p, Activating) then st
    else if ok then Advance(st, p, NextStage(st.tasks[p].command))
    else Reject(st, p, Error)
  }

  /** A prompt becomes its session's waiter, unless there is one. */
  function OnEnlist(st: State, p: PromptId): (b: State)
    ensures b.pending == st.pending
  {
    if !At(st, p, Enlisting) then st
    else if st.tasks[p].session in st.waiters then Reject(st, p, Error)
    else Advance(st, p, Submitting).(waiters := st.waiters[st.tasks[p].session := p])
  }

  function LocalAnswer(command: Command, ok: bool): Answer {
    if !ok then Error else Stopped(if command == CancelTurn then Cancelled else EndTurn)
  }

  /** /status and /cancel are answered at once; /cancel has asked the daemon. */
  function OnLocalDone(st: State, p: PromptId, ok: bool): (b: State)
    ensures b.pending == st.pending
  {
    if !At(st, p, Local) then st
    else
      AnswerPrompt(st, p, LocalAnswer(st.tasks[p].command, ok))
      .(daemonCancels := st.daemonCancels + if st.tasks[p].command == CancelTurn then 1 else 0)
  }

  /** /resume goes on only when no turn is running. */
  function OnTurnChecked(st: State, p: PromptId, busy: Option<bool>): (b: State)
    ensures b.pending == st.pending
  {
    if !At(st, p, CheckingTurn) then st
    else if busy == Some(false) then Advance(st, p, Enlisting)
    else AnswerPrompt(st, p, if busy.None? then Error else Stopped(EndTurn))
  }

  function MailAnswer(mail: Mail): Answer {
    if mail.Completed? && mail.completion != Failed then Stopped(mail.completion) else Error
  }

  function OnCollect(st: State, p: PromptId): (b: State)
    ensures b.pending == st.pending
  {
    if !At(st, p, Waiting) || st.tasks[p].mail == NoMail then st
    else AnswerPrompt(st, p, MailAnswer(st.tasks[p].mail))
  }

  function After(st: State, e: Event): State {
    match e
    case CancelArrives(s) => OnCancelArrives(st, s)
    case CancelProceeds(t, spawned) => OnCancelProceeds(st, t, spawned)
    case RepeatProceeds(s) => OnRepeatProceeds(st, s)
    case TimerElapses(t) => OnTimerElapses(st, t)
    case TimerSeesCancel(t) => if t in st.cancelled then st.(timers := st.timers - {t}) else st
    case PromptArrives(p, s, command) => OnPromptArrives(st, p, s, command)
    case Prepared(p, ok) => OnPrepared(st, p, ok)
    case Activated(p, ok) => OnActivated(st, p, ok)
    case LocalDone(p, ok) => OnLocalDone(st, p, ok)
    case TurnChecked(p, busy) => OnTurnChecked(st, p, busy)
    case Enlist(p) => OnEnlist(st, p)
    case Submitted(p, verdict) => OnSubmitted(st, p, verdict)
    case Complete(s, c) => CompletePrompt(st, s, c)
    case Collect(p) => OnCollect(st, p)
  }

  function Run(events: seq<Event>): State {
    if events == [] then START else After(Run(events[..|events| - 1]), events[|events| - 1])
  }

  // ---------------------------------------------------------------- every cancel resolves once

  /** How often a cancel has been resolved. */
  function Resolutions(fates: seq<Fate>, t: Token): nat {
    if fates == [] then 0
    else Resolutions(fates[..|fates| - 1], t) + if fates[|fates| - 1].token == t then 1 else 0
  }

  lemma OneMoreFate(fates: seq<Fate>, f: Fate, t: Token)
    ensures Resolutions(fates + [f], t) == Resolutions(fates, t) + if f.token == t then 1 else 0
  {
    assert (fates + [f])[..|fates|] == fates;
  }

  predicate IsHeld(st: State, t: Token) {
    exists p :: p in st.tasks && st.tasks[p].held == Some(t)
  }

  /** A cancel is pending, or held by a prompt, or resolved; while pending, a task is there to resolve it. */
  predicate TokenOk(st: State, t: Token) {
    && (IsPending(st, t) ==> t in st.issued && !IsHeld(st, t) && t in st.spawning + st.timers
                             && t !in st.cancelled)
    && (IsHeld(st, t) ==> t in st.issued)
    && (t in st.issued ==> t.serial < st.next)
    && (t in st.cancelled || t in st.spawning || t in st.timers ==> t in st.issued)
    && Resolutions(st.fates, t) == if t in st.issued && !IsPending(st, t) && !IsHeld(st, t) then 1 else 0
  }

  predicate TaskOk(st: State, p: PromptId)
    requires p in st.tasks
  {
    var task := st.tasks[p];
    task.held.Some? ==>
      && task.command == Plain && task.held.value.session == task.session
      && (task.stage.Preparing? || task.stage.Activating? || task.stage.Enlisting? || task.stage.Submitting?)
      && forall q :: q in st.tasks && st.tasks[q].held == task.held ==> q == p
  }

  ghost predicate CancelsOk(st: State) {
    && (forall t :: TokenOk(st, t))
    && (forall s :: s in st.pending ==> st.pending[s].session == s)
    && (forall p :: p in st.tasks ==> TaskOk(st, p))
  }

  /** Only mail and stages differ, and no stage left the four in which a cancel may be held. */
  ghost predicate SameCancels(a: State, b: State) {
    && a.pending == b.pending && a.next == b.next && a.issued == b.issued && a.fates == b.fates
    && a.tasks.Keys == b.tasks.Keys
    && forall p :: p in a.tasks ==>
         && a.tasks[p].held == b.tasks[p].held && a.tasks[p].command == b.tasks[p].command
         && a.tasks[p].session == b.tasks[p].session
  }

  lemma HeldStays(a: State, b: State, t: Token)
    requires SameCancels(a, b)
    ensures IsHeld(a, t) <==> IsHeld(b, t)
  {
    if IsHeld(a, t) {
      var p :| p in a.tasks && a.tasks[p].held == Some(t);
      assert b.tasks[p].held == Some(t);
    }
    if IsHeld(b, t) {
      var p :| p in b.tasks && b.tasks[p].held == Some(t);
      assert a.tasks[p].held == Some(t);
    }
  }

  lemma CancelsUntouched(a: State, b: State)
    requires CancelsOk(a) && SameCancels(a, b)
    requires forall t :: IsPending(a, t) ==> t in b.spawning + b.timers && t !in b.cancelled
    requires b.spawning <= a.issued && b.timers <= a.issued && b.cancelled <= a.issued
    requires forall p :: p in b.tasks && b.tasks[p].held.Some? ==>
               b.tasks[p].stage in {Preparing, Activating, Enlisting, Submitting}
    ensures CancelsOk(b)
  {
    forall t ensures TokenOk(b, t) {
      assert TokenOk(a, t);
      HeldStays(a, b, t);
      assert IsPending(a, t) <==> IsPending(b, t);
    }
    forall p | p in b.tasks ensures TaskOk(b, p) {
      assert TaskOk(a, p);
    }
  }

  /** A pending cancel that is taken away and resolved at once. */
  function ResolvePending(st: State, t: Token, o: Outcome): State {
    Resolve(st.(pending := st.pending - {t.session}), t, o)
  }

  lemma ResolvingPending(st: State, t: Token, o: Outcome)
    requires CancelsOk(st) && IsPending(st, t)
    ensures CancelsOk(ResolvePending(st, t, o))
  {
    var b := ResolvePending(st, t, o);
    forall u ensures TokenOk(b, u) {
      assert TokenOk(st, u) && TokenOk(st, t);
      OneMoreFate(st.fates, Fate(t, o), u);
      assert IsHeld(b, u) <==> IsHeld(st, u);
      assert IsPending(b, u) <==> IsPending(st, u) && u != t;
    }
    forall p | p in b.tasks ensures TaskOk(b, p) {
      assert TaskOk(st, p);
    }
  }

  /** A held cancel that its prompt resolves. */
  function ResolveHeld(st: State, p: PromptId, o: Outcome): State
    requires p in st.tasks && st.tasks[p].held.Some?
  {
    Resolve(st, st.tasks[p].held.value, o).(tasks := st.tasks[p := st.tasks[p].(held := None)])
  }

  lemma ResolvingHeld(st: State, p: PromptId, o: Outcome)
    requires CancelsOk(st) && p in st.tasks && st.tasks[p].held.Some?
    ensures CancelsOk(ResolveHeld(st, p, o))
  {
    var b, t := ResolveHeld(st, p, o), st.tasks[p].held.value;
    assert TaskOk(st, p) && IsHeld(st, t);
    forall u ensures TokenOk(b, u) {
      assert TokenOk(st, u) && TokenOk(st, t);
      OneMoreFate(st.fates, Fate(t, o), u);
      if IsHeld(b, u) {
        var q :| q in b.tasks && b.tasks[q].held == Some(u);
        assert st.tasks[q].held == Some(u) && q != p;
      }
      if IsHeld(st, u) && u != t {
        var q :| q in st.tasks && st.tasks[q].held == Some(u);
        assert b.tasks[q].held == Some(u);
      }
      assert IsPending(b, u) <==> IsPending(st, u);
    }
    forall q | q in b.tasks ensures TaskOk(b, q) {
      assert TaskOk(st, q);
    }
  }

  lemma Scheduling(st: State, s: SessionId)
    requires CancelsOk(st)
    ensures CancelsOk(OnCancelArrives(st, s))
  {
    var b := OnCancelArrives(st, s);
    forall t ensures TokenOk(b, t) {
      assert TokenOk(st, t);
      assert IsHeld(b, t) <==> IsHeld(st, t);
      if s !in st.pending {
        assert t != Token(s, st.next) ==> (IsPending(b, t) <==> IsPending(st, t));
      }
    }
    forall p | p in b.tasks ensures TaskOk(b, p) {
      assert TaskOk(st, p);
    }
  }

  lemma Consuming(st: State, p: PromptId, s: SessionId, command: Command)
    requires CancelsOk(st) && p !in st.tasks && s in st.pending && command == Plain
    ensures CancelsOk(OnPromptArrives(st, p, s, command))
  {
    var b, t := OnPromptArrives(st, p, s, command), st.pending[s];
    assert TokenOk(st, t) && IsPending(st, t);
    assert b.tasks[p].held == Some(t);
    assert forall q :: q in st.tasks ==> st.tasks[q].held != Some(t);
    forall u ensures TokenOk(b, u) {
      assert TokenOk(st, u);
      if IsHeld(st, u) {
        var q :| q in st.tasks && st.tasks[q].held == Some(u);
        assert b.tasks[q].held == Some(u);
      }
      if IsHeld(b, u) && u != t {
        var q :| q in b.tasks && b.tasks[q].held == Some(u);
        assert st.tasks[q].held == Some(u);
      }
      assert IsPending(b, u) <==> IsPending(st, u) && u != t;
    }
    forall q | q in b.tasks ensures TaskOk(b, q) {
      if q != p {
        assert TaskOk(st, q);
      }
    }
  }

  lemma NewTask(st: State, p: PromptId, task: Task)
    requires CancelsOk(st) && p !in st.tasks && task.held.None?
    ensures CancelsOk(st.(tasks := st.tasks[p := task]))
  {
    var b := st.(tasks := st.tasks[p := task]);
    forall t ensures TokenOk(b, t) {
      assert TokenOk(st, t);
      if IsHeld(st, t) {
        var q :| q in st.tasks && st.tasks[q].held == Some(t);
        assert b.tasks[q].held == Some(t);
      }
      assert IsPending(b, t) <==> IsPending(st, t);
    }
    forall q | q in b.tasks ensures TaskOk(b, q) {
      if q != p {
        assert TaskOk(st, q);
      }
    }
  }

  // ---------------------------------------------------------------- every event keeps it so

  /** Timers and spawns still belong to issued cancels, and every pending one has its own. */
  ghost predicate Covered(a: State, b: State) {
    && b.spawning <= a.issued && b.timers <= a.issued && b.cancelled <= a.issued
    && forall t :: IsPending(a, t) ==> t in b.spawning + b.timers && t !in b.cancelled
  }

  lemma StillCovered(st: State)
    requires CancelsOk(st)
    ensures Covered(st, st)
  {
    forall t ensures t in st.cancelled || t in st.spawning || t in st.timers ==> t in st.issued {
      assert TokenOk(st, t);
    }
    forall t | IsPending(st, t) ensures t in st.spawning + st.timers && t !in st.cancelled {
      assert TokenOk(st, t);
    }
  }

  lemma HoldersAreEarly(st: State)
    requires CancelsOk(st)
    ensures forall p :: p in st.tasks && st.tasks[p].held.Some? ==>
              st.tasks[p].stage in {Preparing, Activating, Enlisting, Submitting}
  {
    forall p | p in st.tasks && st.tasks[p].held.Some?
      ensures st.tasks[p].stage in {Preparing, Activating, Enlisting, Submitting}
    {
      assert TaskOk(st, p);
    }
  }

  lemma MailKeeps(st: State, s: SessionId, c: Completion)
    requires CancelsOk(st)
    ensures CancelsOk(CompletePrompt(st, s, c)) && CancelsOk(Unlist(st, s))
  {
    StillCovered(st);
    HoldersAreEarly(st);
    CancelsUntouched(st, CompletePrompt(st, s, c));
    CancelsUntouched(st, Unlist(st, s));
  }

  lemma MovingOnKeeps(st: State, p: PromptId, stage: Stage)
    requires CancelsOk(st) && p in st.tasks
    requires st.tasks[p].held.Some? ==> stage in {Preparing, Activating, Enlisting, Submitting}
    ensures CancelsOk(Advance(st, p, stage))
  {
    StillCovered(st);
    HoldersAreEarly(st);
    CancelsUntouched(st, Advance(st, p, stage));
  }

  lemma AnsweringKeeps(st: State, p: PromptId, a: Answer)
    requires CancelsOk(st) && p in st.tasks && st.tasks[p].held.None?
    ensures CancelsOk(AnswerPrompt(st, p, a))
  {
    MovingOnKeeps(st, p, Answered);
    var b := Advance(st, p, Answered);
    StillCovered(b);
    HoldersAreEarly(b);
    CancelsUntouched(b, AnswerPrompt(st, p, a));
  }

  lemma CountingKeeps(st: State, n: nat)
    requires CancelsOk(st)
    ensures CancelsOk(st.(daemonCancels := n))
  {
    StillCovered(st);
    HoldersAreEarly(st);
    CancelsUntouched(st, st.(daemonCancels := n));
  }

  lemma RejectingKeeps(st: State, p: PromptId, a: Answer)
    requires CancelsOk(st) && p in st.tasks
    ensures CancelsOk(Reject(st, p, a))
  {
    if st.tasks[p].held.Some? {
      ResolvingHeld(st, p, Forwarded);
      var b := ResolveHeld(st, p, Forwarded);
      CountingKeeps(b, st.daemonCancels + 1);
      AnsweringKeeps(b.(daemonCancels := st.daemonCancels + 1), p, a);
    } else {
      AnsweringKeeps(st, p, a);
    }
  }

  lemma ProceedingKeeps(st: State, t: Token, spawned: bool)
    requires CancelsOk(st)
    ensures CancelsOk(OnCancelProceeds(st, t, spawned))
  {
    if t in st.spawning {
      MailKeeps(st, t.session, Cancelled);
      var a := CompletePrompt(st, t.session, Cancelled);
      StillCovered(a);
      HoldersAreEarly(a);
      if spawned || !IsPending(a, t) {
        CancelsUntouched(a, OnCancelProceeds(st, t, spawned));
      } else {
        ResolvingPending(a, t, Unsent);
        var b := ResolvePending(a, t, Unsent);
        StillCovered(b);
        HoldersAreEarly(b);
        CancelsUntouched(b, OnCancelProceeds(st, t, spawned));
      }
    }
  }

  lemma RepeatKeeps(st: State, s: SessionId)
    requires CancelsOk(st)
    ensures CancelsOk(OnRepeatProceeds(st, s))
  {
    if s in st.repeats {
      MailKeeps(st, s, Cancelled);
      var a := CompletePrompt(st, s, Cancelled);
      StillCovered(a);
      HoldersAreEarly(a);
      CancelsUntouched(a, OnRepeatProceeds(st, s));
    }
  }

  lemma ElapsingKeeps(st: State, t: Token)
    requires CancelsOk(st)
    ensures CancelsOk(OnTimerElapses(st, t))
  {
    StillCovered(st);
    HoldersAreEarly(st);
    if t in st.timers && IsPending(st, t) {
      ResolvingPending(st, t, SentByTimer);
      var b := ResolvePending(st, t, SentByTimer);
      StillCovered(b);
      CancelsUntouched(b, OnTimerElapses(st, t));
    } else {
      CancelsUntouched(st, OnTimerElapses(st, t));
    }
  }

  lemma PromptKeeps(st: State, p: PromptId, s: SessionId, command: Command)
    requires CancelsOk(st)
    ensures CancelsOk(OnPromptArrives(st, p, s, command))
  {
    var arrived := Task(s, command, None, Preparing, NoMail);
    if p !in st.tasks {
      if s !in st.pending {
        NewTask(st, p, arrived);
      } else if command == Plain {
        Consuming(st, p, s, command);
      } else {
        var t := st.pending[s];
        assert TokenOk(st, t) && IsPending(st, t);
        ResolvingPending(st, t, DroppedByCommand);
        var b := ResolvePending(st, t, DroppedByCommand);
        StillCovered(b);
        HoldersAreEarly(b);
        CancelsUntouched(b, b.(cancelled := st.cancelled + {t}));
        NewTask(b.(cancelled := st.cancelled + {t}), p, arrived);
      }
    }
  }

  lemma SubmittingKeeps(st: State, p: PromptId, verdict: Verdict)
    requires CancelsOk(st)
    ensures CancelsOk(OnSubmitted(st, p, verdict))
  {
    if At(st, p, Submitting) {
      if verdict == Accepted {
        if st.tasks[p].held.Some? {
          ResolvingHeld(st, p, Replaced);
          var b := ResolveHeld(st, p, Replaced);
          MovingOnKeeps(b, p, Waiting);
          assert Advance(b, p, Waiting) == OnSubmitted(st, p, verdict);
        } else {
          MovingOnKeeps(st, p, Waiting);
        }
      } else {
        MailKeeps(st, st.tasks[p].session, Cancelled);
        RejectingKeeps(Unlist(st, st.tasks[p].session), p, if verdict == Refused then Stopped(EndTurn) else Error);
      }
    }
  }

  lemma LocalKeepsCancels(st: State, p: PromptId, ok: bool)
    requires CancelsOk(st)
    ensures CancelsOk(After(st, LocalDone(p, ok)))
  {
    if At(st, p, Local) {
      HoldersAreEarly(st);
      var a := LocalAnswer(st.tasks[p].command, ok);
      AnsweringKeeps(st, p, a);
      CountingKeeps(AnswerPrompt(st, p, a), After(st, LocalDone(p, ok)).daemonCancels);
    }
  }

  lemma TurnCheckKeepsCancels(st: State, p: PromptId, busy: Option<bool>)
    requires CancelsOk(st)
    ensures CancelsOk(After(st, TurnChecked(p, busy)))
  {
    if At(st, p, CheckingTurn) {
      HoldersAreEarly(st);
      AnsweringKeeps(st, p, if busy.None? then Error else Stopped(EndTurn));
      MovingOnKeeps(st, p, Enlisting);
    }
  }

  lemma {:induction false} StepKeepsCancels(st: State, e: Event)
    requires CancelsOk(st)
    ensures CancelsOk(After(st, e))
  {
    match e
    case CancelArrives(s) => Scheduling(st, s);
    case CancelProceeds(t, spawned) => ProceedingKeeps(st, t, spawned);
    case RepeatProceeds(s) => RepeatKeeps(st, s);
    case TimerElapses(t) => ElapsingKeeps(st, t);
    case TimerSeesCancel(t) =>
      StillCovered(st);
      HoldersAreEarly(st);
      CancelsUntouched(st, After(st, e));
    case PromptArrives(p, s, command) => PromptKeeps(st, p, s, command);
    case Prepared(p, ok) =>
      if At(st, p, Preparing) {
        if ok { MovingOnKeeps(st, p, Activating); } else { RejectingKeeps(st, p, Error); }
      }
    case Activated(p, ok) => ActivatedKeeps(st, p, ok);
    case LocalDone(p, ok) => LocalKeepsCancels(st, p, ok);
    case TurnChecked(p, busy) => TurnCheckKeepsCancels(st, p, busy);
    case Enlist(p) => EnlistingKeeps(st, p);
    case Submitted(p, verdict) => SubmittingKeeps(st, p, verdict);
    case Complete(s, c) => MailKeeps(st, s, c);
    case Collect(p) =>
      if At(st, p, Waiting) && st.tasks[p].mail != NoMail {
        HoldersAreEarly(st);
        AnsweringKeeps(st, p, MailAnswer(st.tasks[p].mail));
      }
  }

  lemma ActivatedKeeps(st: State, p: PromptId, ok: bool)
    requires CancelsOk(st)
    ensures CancelsOk(OnActivated(st, p, ok))
  {
    if At(st, p, Activating) {
      assert TaskOk(st, p);
      if !ok {
        RejectingKeeps(st, p, Error);
      } else {
        MovingOnKeeps(st, p, NextStage(st.tasks[p].command));
      }
    }
  }

  lemma EnlistingKeeps(st: State, p: PromptId)
    requires CancelsOk(st)
    ensures CancelsOk(OnEnlist(st, p))
  {
    if At(st, p, Enlisting) {
      if st.tasks[p].session in st.waiters {
        RejectingKeeps(st, p, Error);
      } else {
        StillCovered(st);
        HoldersAreEarly(st);
        CancelsUntouched(st, OnEnlist(st, p));
      }
    }
  }

  lemma {:induction false} RunsKeepCancels(events: seq<Event>)
    ensures CancelsOk(Run(events))
  {
    if events == [] {
      forall t ensures TokenOk(START, t) {
      }
    } else {
      RunsKeepCancels(events[..|events| - 1]);
      StepKeepsCancels(Run(events[..|events| - 1]), events[|events| - 1]);
    }
  }

  /** Nothing is left to happen to a cancel: no spawn, no timer, and no prompt short of its verdict. */
  predicate AtRest(st: State) {
    && st.spawning == {} && st.timers == {}
    && forall p :: p in st.tasks ==> st.tasks[p].stage in {Local, CheckingTurn, Waiting, Answered}
  }

  /**
   On a live connection, however its tasks interleave, no deferred cancel is ever resolved twice, and once
   the timers have run out and the prompts have their verdicts, every one has been resolved.
   */
  lemma {:induction false} EveryCancelResolvesOnce(events: seq<Event>, t: Token)
    ensures var st := Run(events);
            && Resolutions(st.fates, t) <= 1
            && (t !in st.issued ==> Resolutions(st.fates, t) == 0)
            && (AtRest(st) && t in st.issued ==> Resolutions(st.fates, t) == 1)
  {
    RunsKeepCancels(events);
    var st := Run(events);
    assert TokenOk(st, t);
    HoldersAreEarly(st);
  }

  // ---------------------------------------------------------------- what the outcomes mean

  /** Each outcome says what happened, and to the daemon only what it should: a cancel that was sent. */
  ghost predicate Caused(st: State, e: Event, f: Fate) {
    var b := After(st, e);
    match f.outcome
    case SentByTimer =>
      e == TimerElapses(f.token) && IsPending(st, f.token) && b.daemonCancels == st.daemonCancels + 1
    case DroppedByCommand =>
      && e.PromptArrives? && e.command != Plain && e.session == f.token.session
      && IsPending(st, f.token) && b.daemonCancels == st.daemonCancels
    case Replaced =>
      && e.Submitted? && e.verdict == Accepted && At(st, e.prompt, Submitting)
      && st.tasks[e.prompt].held == Some(f.token) && b.daemonCancels == st.daemonCancels
    case Forwarded =>
      && (e.Prepared? || e.Activated? || e.Enlist? || (e.Submitted? && e.verdict != Accepted))
      && e.prompt in st.tasks && st.tasks[e.prompt].held == Some(f.token)
      && At(b, e.prompt, Answered) && !At(st, e.prompt, Answered)
      && b.daemonCancels == st.daemonCancels + 1
    case Unsent =>
      e == CancelProceeds(f.token, false) && IsPending(st, f.token) && b.daemonCancels == st.daemonCancels
  }

  function CommandCancels(st: State, e: Event): nat {
    if e.LocalDone? && At(st, e.prompt, Local) && st.tasks[e.prompt].command == CancelTurn then 1 else 0
  }

  /** The next event either leaves the record of outcomes alone or adds one, for the reason it names. */
  ghost predicate Accounted(st: State, e: Event) {
    var b := After(st, e);
    || (b.fates == st.fates && b.daemonCancels == st.daemonCancels + CommandCancels(st, e))
    || (|b.fates| == |st.fates| + 1 && st.fates <= b.fates && CommandCancels(st, e) == 0
        && Caused(st, e, b.fates[|st.fates|]))
  }

  lemma RejectedFate(st: State, p: PromptId, a: Answer)
    requires p in st.tasks
    ensures var b := Reject(st, p, a);
            && At(b, p, Answered)
            && if st.tasks[p].held.Some? then
                 b.fates == st.fates + [Fate(st.tasks[p].held.value, Forwarded)]
                 && b.daemonCancels == st.daemonCancels + 1
               else b.fates == st.fates && b.daemonCancels == st.daemonCancels
  {
  }

  lemma AcceptedIsAccounted(st: State, p: PromptId)
    requires CancelsOk(st)
    ensures Accounted(st, Submitted(p, Accepted))
  {
  }

  lemma SubmittedIsAccounted(st: State, p: PromptId, verdict: Verdict)
    requires CancelsOk(st)
    ensures Accounted(st, Submitted(p, verdict))
  {
    if verdict == Accepted {
      AcceptedIsAccounted(st, p);
    } else if At(st, p, Submitting) {
      RejectedFate(Unlist(st, st.tasks[p].session), p, if verdict == Refused then Stopped(EndTurn) else Error);
    }
  }

  lemma EnlistIsAccounted(st: State, p: PromptId)
    requires CancelsOk(st)
    ensures Accounted(st, Enlist(p))
  {
    if p in st.tasks {
      RejectedFate(st, p, Error);
    }
  }

  lemma EarlyRejectionIsAccounted(st: State, e: Event)
    requires CancelsOk(st) && (e.Prepared? || e.Activated?)
    ensures Accounted(st, e)
  {
    if e.prompt in st.tasks {
      RejectedFate(st, e.prompt, Error);
    }
  }

  lemma PromptIsAccounted(st: State, p: PromptId, s: SessionId, command: Command)
    requires CancelsOk(st)
    ensures Accounted(st, PromptArrives(p, s, command))
  {
  }

  lemma AnswerIsAccounted(st: State, e: Event)
    requires CancelsOk(st) && (e.LocalDone? || e.TurnChecked? || e.Complete? || e.Collect?)
    ensures Accounted(st, e)
  {
  }

  lemma CancelIsAccounted(st: State, e: Event)
    requires CancelsOk(st)
    requires e.CancelArrives? || e.CancelProceeds? || e.RepeatProceeds? || e.TimerElapses? || e.TimerSeesCancel?
    ensures Accounted(st, e)
  {
    match e
    case CancelProceeds(t, spawned) => ProceedingIsAccounted(st, t, spawned);
    case TimerElapses(t) => ElapsingIsAccounted(st, t);
    case _ =>
  }

  lemma ProceedingIsAccounted(st: State, t: Token, spawned: bool)
    requires CancelsOk(st)
    ensures Accounted(st, CancelProceeds(t, spawned))
  {
  }

  lemma ElapsingIsAccounted(st: State, t: Token)
    requires CancelsOk(st)
    ensures Accounted(st, TimerElapses(t))
  {
  }

  lemma {:induction false} FatesHaveCauses(st: State, e: Event)
    requires CancelsOk(st)
    ensures Accounted(st, e)
  {
    if e.Submitted? {
      SubmittedIsAccounted(st, e.prompt, e.verdict);
    } else if e.Enlist? {
      EnlistIsAccounted(st, e.prompt);
    } else if e.Prepared? || e.Activated? {
      EarlyRejectionIsAccounted(st, e);
    } else if e.PromptArrives? {
      PromptIsAccounted(st, e.prompt, e.session, e.command);
    } else if e.LocalDone? || e.TurnChecked? || e.Complete? || e.Collect? {
      AnswerIsAccounted(st, e);
    } else {
      CancelIsAccounted(st, e);
    }
  }

  function DaemonCancelsOf(fates: seq<Fate>): nat {
    if fates == [] then 0
    else
      var o := fates[|fates| - 1].outcome;
      DaemonCancelsOf(fates[..|fates| - 1]) + if o == SentByTimer || o == Forwarded then 1 else 0
  }

  function CommandsCancelled(events: seq<Event>): nat {
    if events == [] then 0
    else
      var front := events[..|events| - 1];
      CommandsCancelled(front) + CommandCancels(Run(front), events[|events| - 1])
  }

  /** The daemon is asked to cancel once for every cancel sent or forwarded, once for every /cancel, and else never. */
  lemma {:induction false} DaemonIsAskedOnce(events: seq<Event>)
    ensures Run(events).daemonCancels == DaemonCancelsOf(Run(events).fates) + CommandsCancelled(events)
  {
    if events != [] {
      var front, e := events[..|events| - 1], events[|events| - 1];
      DaemonIsAskedOnce(front);
      RunsKeepCancels(front);
      var st, b := Run(front), Run(events);
      FatesHaveCauses(st, e);
      assert b == After(st, e);
      if |b.fates| == |st.fates| + 1 {
        assert b.fates[..|st.fates|] == st.fates;
      }
    }
  }

  /**
   A pending cancel leaves only by its own timer, by its own failed spawn, or by a prompt on its session:
   the timer of an older cancel never takes a newer one away.
   */
  lemma PendingLeavesOnlyByItsOwn(st: State, e: Event, t: Token)
    requires CancelsOk(st) && IsPending(st, t) && !IsPending(After(st, e), t)
    ensures e == TimerElapses(t) || e == CancelProceeds(t, false)
            || (e.PromptArrives? && e.session == t.session)
  {
    if e.PromptArrives? {
      assert e.session in st.pending ==> st.pending[e.session].session == e.session;
    }
  }

  // ---------------------------------------------------------------- every prompt is answered once

  function Responses(answers: seq<(PromptId, Answer)>, p: PromptId): nat {
    if answers == [] then 0
    else Responses(answers[..|answers| - 1], p) + if answers[|answers| - 1].0 == p then 1 else 0
  }

  lemma OneMoreAnswer(answers: seq<(PromptId, Answer)>, p: PromptId, a: Answer, q: PromptId)
    ensures Responses(answers + [(p, a)], q) == Responses(answers, q) + if p == q then 1 else 0
  {
    assert (answers + [(p, a)])[..|answers|] == answers;
  }

  predicate InFlight(task: Task) {
    task.stage == Submitting || task.stage == Waiting
  }

  /** The registered prompts are those in flight whose completion has not come. */
  predicate WaiterOk(st: State, p: PromptId) {
    && Responses(st.answers, p) == (if At(st, p, Answered) then 1 else 0)
    && (p in st.tasks ==>
          var task := st.tasks[p];
          (InFlight(task) && task.mail == NoMail
           <==> task.session in st.waiters && st.waiters[task.session] == p))
  }

  ghost predicate WaitersOk(st: State) {
    && (forall p :: WaiterOk(st, p))
    && (forall s :: s in st.waiters ==> st.waiters[s] in st.tasks && st.tasks[st.waiters[s]].session == s)
  }

  lemma AnswerKeepsWaiters(st: State, p: PromptId, a: Answer)
    requires WaitersOk(st) && p in st.tasks && st.tasks[p].stage != Answered
    requires InFlight(st.tasks[p]) ==> st.tasks[p].mail != NoMail
    ensures WaitersOk(AnswerPrompt(st, p, a))
  {
    var b := AnswerPrompt(st, p, a);
    forall q ensures WaiterOk(b, q) {
      assert WaiterOk(st, q) && WaiterOk(st, p);
      OneMoreAnswer(st.answers, p, a, q);
    }
  }

  lemma MailKeepsWaiters(st: State, s: SessionId, c: Completion)
    requires WaitersOk(st)
    ensures WaitersOk(CompletePrompt(st, s, c)) && WaitersOk(Unlist(st, s))
  {
    forall q ensures WaiterOk(CompletePrompt(st, s, c), q) && WaiterOk(Unlist(st, s), q) {
      assert WaiterOk(st, q);
    }
  }

  ghost predicate SameWaiters(a: State, b: State) {
    && a.answers == b.answers && a.waiters == b.waiters && a.tasks.Keys == b.tasks.Keys
    && forall p :: p in a.tasks ==>
         && a.tasks[p].session == b.tasks[p].session && a.tasks[p].mail == b.tasks[p].mail
         && InFlight(a.tasks[p]) == InFlight(b.tasks[p])
         && (a.tasks[p].stage == Answered) == (b.tasks[p].stage == Answered)
  }

  lemma WaitersUntouched(a: State, b: State)
    requires WaitersOk(a) && SameWaiters(a, b)
    ensures WaitersOk(b)
  {
    forall p ensures WaiterOk(b, p) {
      assert WaiterOk(a, p);
    }
  }

  lemma RejectKeepsWaiters(st: State, p: PromptId, a: Answer)
    requires WaitersOk(st) && p in st.tasks && st.tasks[p].stage != Answered
    requires InFlight(st.tasks[p]) ==> st.tasks[p].mail != NoMail
    ensures WaitersOk(Reject(st, p, a))
  {
    if st.tasks[p].held.Some? {
      var b := ResolveHeld(st, p, Forwarded).(daemonCancels := st.daemonCancels + 1);
      WaitersUntouched(st, b);
      AnswerKeepsWaiters(b, p, a);
    } else {
      AnswerKeepsWaiters(st, p, a);
    }
  }

  lemma EnlistKeepsWaiters(st: State, p: PromptId)
    requires WaitersOk(st) && At(st, p, Enlisting) && st.tasks[p].session !in st.waiters
    requires st.tasks[p].mail == NoMail
    ensures WaitersOk(OnEnlist(st, p))
  {
    var b := OnEnlist(st, p);
    forall q ensures WaiterOk(b, q) {
      assert WaiterOk(st, q);
    }
  }

  lemma SubmitKeepsWaiters(st: State, p: PromptId, verdict: Verdict)
    requires WaitersOk(st)
    ensures WaitersOk(OnSubmitted(st, p, verdict))
  {
    if At(st, p, Submitting) {
      var s := st.tasks[p].session;
      if verdict == Accepted {
        WaitersUntouched(st, OnSubmitted(st, p, verdict));
      } else {
        assert WaiterOk(st, p);
        MailKeepsWaiters(st, s, Cancelled);
        RejectKeepsWaiters(Unlist(st, s), p, if verdict == Refused then Stopped(EndTurn) else Error);
      }
    }
  }

  lemma NewTaskKeepsWaiters(st: State, p: PromptId, task: Task)
    requires WaitersOk(st) && p !in st.tasks && task.stage == Preparing
    ensures WaitersOk(st.(tasks := st.tasks[p := task]))
  {
    var b := st.(tasks := st.tasks[p := task]);
    forall q ensures WaiterOk(b, q) {
      assert WaiterOk(st, q);
    }
  }

  lemma ArrivalKeepsWaiters(st: State, p: PromptId, s: SessionId, command: Command)
    requires WaitersOk(st)
    ensures WaitersOk(OnPromptArrives(st, p, s, command))
  {
    if p !in st.tasks {
      var b := OnPromptArrives(st, p, s, command);
      var a := b.(tasks := st.tasks);
      WaitersUntouched(st, a);
      NewTaskKeepsWaiters(a, p, b.tasks[p]);
    }
  }

  /** Before it is in flight, a prompt has no mail. */
  ghost predicate NoEarlyMail(st: State) {
    forall p :: p in st.tasks && !InFlight(st.tasks[p]) && st.tasks[p].stage != Answered
                ==> st.tasks[p].mail == NoMail
  }

  lemma MailKeepsNoEarly(st: State, s: SessionId, c: Completion)
    requires WaitersOk(st) && NoEarlyMail(st)
    ensures NoEarlyMail(CompletePrompt(st, s, c)) && NoEarlyMail(Unlist(st, s))
  {
    if s in st.waiters {
      assert WaiterOk(st, st.waiters[s]);
    }
  }

  lemma VerdictKeepsNoEarly(st: State, p: PromptId, verdict: Verdict)
    requires WaitersOk(st) && NoEarlyMail(st)
    ensures NoEarlyMail(OnSubmitted(st, p, verdict))
  {
    if p in st.tasks {
      MailKeepsNoEarly(st, st.tasks[p].session, Cancelled);
    }
  }

  lemma RunKeepsNoEarly(st: State, e: Event)
    requires NoEarlyMail(st)
    requires e.Prepared? || e.Activated? || e.LocalDone? || e.TurnChecked? || e.Enlist? || e.Collect?
    ensures NoEarlyMail(After(st, e))
  {
    if e.Prepared? || e.Activated? {
      ArrivingKeepsNoEarly(st, e);
    } else if e.LocalDone? || e.TurnChecked? {
      LocalKeepsNoEarly(st, e);
    } else {
      SendingKeepsNoEarly(st, e);
    }
  }

  lemma ArrivingKeepsNoEarly(st: State, e: Event)
    requires NoEarlyMail(st) && (e.Prepared? || e.Activated?)
    ensures NoEarlyMail(After(st, e))
  {
  }

  lemma LocalKeepsNoEarly(st: State, e: Event)
    requires NoEarlyMail(st) && (e.LocalDone? || e.TurnChecked?)
    ensures NoEarlyMail(After(st, e))
  {
  }

  lemma SendingKeepsNoEarly(st: State, e: Event)
    requires NoEarlyMail(st) && (e.Enlist? || e.Collect?)
    ensures NoEarlyMail(After(st, e))
  {
  }

  lemma StepKeepsMail(st: State, e: Event)
    requires WaitersOk(st) && NoEarlyMail(st)
    ensures NoEarlyMail(After(st, e))
  {
    if e.Prepared? || e.Activated? || e.LocalDone? || e.TurnChecked? || e.Enlist? || e.Collect? {
      RunKeepsNoEarly(st, e);
    } else if e.CancelProceeds? {
      MailKeepsNoEarly(st, e.token.session, Cancelled);
    } else if e.RepeatProceeds? {
      MailKeepsNoEarly(st, e.session, Cancelled);
    } else if e.Complete? {
      MailKeepsNoEarly(st, e.session, e.completion);
    } else if e.Submitted? {
      VerdictKeepsNoEarly(st, e.prompt, e.verdict);
    }
  }

  lemma EarlyStepKeepsWaiters(st: State, e: Event)
    requires WaitersOk(st) && NoEarlyMail(st) && (e.Prepared? || e.Activated? || e.Enlist?)
    ensures WaitersOk(After(st, e))
  {
    var b, p := After(st, e), e.prompt;
    var due := if e.Prepared? then Preparing else if e.Activated? then Activating else Enlisting;
    if At(st, p, due) {
      if !e.Enlist? && e.ok {
        WaitersUntouched(st, b);
      } else if e.Enlist? && st.tasks[p].session !in st.waiters {
        EnlistKeepsWaiters(st, p);
      } else {
        RejectKeepsWaiters(st, p, Error);
      }
    }
  }

  lemma LocalKeepsWaiters(st: State, p: PromptId, ok: bool)
    requires WaitersOk(st)
    ensures WaitersOk(OnLocalDone(st, p, ok))
  {
    if At(st, p, Local) {
      var a := LocalAnswer(st.tasks[p].command, ok);
      AnswerKeepsWaiters(st, p, a);
      WaitersUntouched(AnswerPrompt(st, p, a), OnLocalDone(st, p, ok));
    }
  }

  lemma TurnCheckKeepsWaiters(st: State, p: PromptId, busy: Option<bool>)
    requires WaitersOk(st)
    ensures WaitersOk(OnTurnChecked(st, p, busy))
  {
    if At(st, p, CheckingTurn) {
      if busy == Some(false) {
        WaitersUntouched(st, OnTurnChecked(st, p, busy));
      } else {
        AnswerKeepsWaiters(st, p, if busy.None? then Error else Stopped(EndTurn));
      }
    }
  }

  lemma CollectKeepsWaiters(st: State, p: PromptId)
    requires WaitersOk(st)
    ensures WaitersOk(OnCollect(st, p))
  {
    if At(st, p, Waiting) && st.tasks[p].mail != NoMail {
      AnswerKeepsWaiters(st, p, MailAnswer(st.tasks[p].mail));
    }
  }

  lemma CancelStepKeepsWaiters(st: State, t: Token, spawned: bool)
    requires WaitersOk(st)
    ensures WaitersOk(OnCancelProceeds(st, t, spawned))
  {
    MailKeepsWaiters(st, t.session, Cancelled);
    if t in st.spawning {
      WaitersUntouched(CompletePrompt(st, t.session, Cancelled), OnCancelProceeds(st, t, spawned));
    }
  }

  lemma RepeatKeepsWaiters(st: State, s: SessionId)
    requires WaitersOk(st)
    ensures WaitersOk(OnRepeatProceeds(st, s))
  {
    MailKeepsWaiters(st, s, Cancelled);
    WaitersUntouched(CompletePrompt(st, s, Cancelled), CompletePrompt(st, s, Cancelled).(repeats := OnRepeatProceeds(st, s).repeats));
  }

  lemma {:induction false} StepKeepsWaiters(st: State, e: Event)
    requires WaitersOk(st) && NoEarlyMail(st)
    ensures WaitersOk(After(st, e))
  {
    if e.Prepared? || e.Activated? || e.Enlist? {
      EarlyStepKeepsWaiters(st, e);
    } else if e.LocalDone? {
      LocalKeepsWaiters(st, e.prompt, e.ok);
    } else if e.TurnChecked? {
      TurnCheckKeepsWaiters(st, e.prompt, e.busy);
    } else if e.Collect? {
      CollectKeepsWaiters(st, e.prompt);
    } else if e.CancelProceeds? {
      CancelStepKeepsWaiters(st, e.token, e.spawned);
    } else if e.RepeatProceeds? {
      RepeatKeepsWaiters(st, e.session);
    } else if e.PromptArrives? {
      ArrivalKeepsWaiters(st, e.prompt, e.session, e.command);
    } else if e.Submitted? {
      SubmitKeepsWaiters(st, e.prompt, e.verdict);
    } else if e.Complete? {
      MailKeepsWaiters(st, e.session, e.completion);
    } else {
      WaitersUntouched(st, After(st, e));
    }
  }

  lemma {:induction false} RunsKeepWaiters(events: seq<Event>)
    ensures WaitersOk(Run(events)) && NoEarlyMail(Run(events))
  {
    if events == [] {
      forall p ensures WaiterOk(START, p) {
      }
    } else {
      var st, e := Run(events[..|events| - 1]), events[|events| - 1];
      RunsKeepWaiters(events[..|events| - 1]);
      StepKeepsWaiters(st, e);
      StepKeepsMail(st, e);
    }
  }

  /**
   No prompt is answered twice, every one that is done has been answered, and one that waits either has
   its completion or is the one that the next completion of its session goes to.
   */
  lemma {:induction false} EveryPromptIsAnsweredOnce(events: seq<Event>, p: PromptId)
    ensures var st := Run(events);
            && Responses(st.answers, p) == (if At(st, p, Answered) then 1 else 0)
            && (At(st, p, Waiting) ==>
                  var task := st.tasks[p];
                  task.mail != NoMail
                  || (task.session in st.waiters && st.waiters[task.session] == p
                      && forall c :: After(st, Complete(task.session, c)).tasks[p].mail == Completed(c)))
  {
    RunsKeepWaiters(events);
    assert WaiterOk(Run(events), p);
  }

  /**
   Waiters are removed by session, not by prompt. A prompt that the daemon turns down therefore takes
   another prompt's waiter away exactly when its own completion came before the verdict and another
   prompt of the session has been registered since.
   */
  lemma {:induction false} RejectionDropsAnother(events: seq<Event>, p: PromptId, verdict: Verdict)
    requires At(Run(events), p, Submitting) && verdict != Accepted
    ensures var st := Run(events);
            (exists q :: q != p && q in st.tasks && st.tasks[q].mail == NoMail
                         && After(st, Submitted(p, verdict)).tasks[q].mail == SenderDropped)
            <==> st.tasks[p].mail != NoMail && st.tasks[p].session in st.waiters
  {
    RunsKeepWaiters(events);
    var st := Run(events);
    var s, b := st.tasks[p].session, After(st, Submitted(p, verdict));
    assert WaiterOk(st, p);
    if st.tasks[p].mail != NoMail && s in st.waiters {
      var q := st.waiters[s];
      assert WaiterOk(st, q);
      assert q != p && b.tasks[q].mail == SenderDropped;
    }
  }

  ghost predicate Reachable(st: State) {
    exists events :: Run(events) == st
  }

  lemma ReachMore(st: State, e: Event)
    requires Reachable(st)
    ensures Reachable(After(st, e))
  {
    var events :| Run(events) == st;
    assert (events + [e])[..|events|] == events;
    assert Run(events + [e]) == After(st, e);
  }

  /** A prompt on session 0 that has got as far as being registered. */
  function Registered(p: PromptId): Task {
    Task(0, Plain, None, Submitting, NoMail)
  }

  lemma Arrive(st: State, p: PromptId) returns (b: State)
    requires Reachable(st) && p !in st.tasks && 0 !in st.pending
    ensures Reachable(b) && b == st.(tasks := st.tasks[p := Registered(p).(stage := Preparing)])
  {
    b := OnPromptArrives(st, p, 0, Plain);
    ReachMore(st, PromptArrives(p, 0, Plain));
  }

  lemma MoveOn(st: State, p: PromptId) returns (b: State)
    requires Reachable(st) && At(st, p, Preparing) && st.tasks[p].command == Plain
    ensures Reachable(b) && b == st.(tasks := st.tasks[p := st.tasks[p].(stage := Enlisting)])
  {
    var a := OnPrepared(st, p, true);
    ReachMore(st, Prepared(p, true));
    assert a.tasks[p] == st.tasks[p].(stage := Activating);
    b := OnActivated(a, p, true);
    ReachMore(a, Activated(p, true));
  }

  lemma EnlistOn(st: State, p: PromptId) returns (b: State)
    requires Reachable(st) && p in st.tasks && st.tasks[p] == Registered(p).(stage := Enlisting)
    requires 0 !in st.waiters
    ensures Reachable(b) && b == st.(tasks := st.tasks[p := Registered(p)], waiters := st.waiters[0 := p])
  {
    b := OnEnlist(st, p);
    ReachMore(st, Enlist(p));
  }

  lemma Register(st: State, p: PromptId) returns (b: State)
    requires Reachable(st) && p !in st.tasks && 0 !in st.pending && 0 !in st.waiters
    ensures Reachable(b) && b == st.(tasks := st.tasks[p := Registered(p)], waiters := st.waiters[0 := p])
  {
    var st1 := Arrive(st, p);
    var st2 := MoveOn(st1, p);
    assert st2.tasks == st.tasks[p := Registered(p).(stage := Enlisting)];
    b := EnlistOn(st2, p);
    assert b.tasks == st.tasks[p := Registered(p)];
  }

  lemma BreakFirst(st: State) returns (b: State)
    requires Reachable(st) && 0 in st.waiters && st.waiters[0] == 2
    requires 1 in st.tasks && st.tasks[1] == Registered(1).(mail := Completed(Cancelled))
    requires 2 in st.tasks && st.tasks[2] == Registered(2)
    ensures Reachable(b) && 2 in b.tasks && b.tasks[2] == Registered(2).(mail := SenderDropped)
  {
    b := OnSubmitted(st, 1, Broken);
    ReachMore(st, Submitted(1, Broken));
  }

  lemma AcceptSecond(st: State) returns (b: State)
    requires Reachable(st) && 2 in st.tasks && st.tasks[2] == Registered(2).(mail := SenderDropped)
    ensures Reachable(b) && At(b, 2, Waiting) && OnCollect(b, 2).answers == b.answers + [(2, Error)]
  {
    b := OnSubmitted(st, 2, Accepted);
    ReachMore(st, Submitted(2, Accepted));
  }

  /**
   So a prompt that the daemon accepted, and whose turn is running, can be answered with an error: the
   first prompt's completion comes before its request fails, and the failure removes the second's waiter.
   */
  lemma AnAcceptedPromptCanBeDropped() returns (st: State)
    ensures Reachable(st) && At(st, 2, Waiting) && OnCollect(st, 2).answers == st.answers + [(2, Error)]
  {
    assert Reachable(START) by {
      assert Run([]) == START;
    }
    var st1 := Register(START, 1);
    ReachMore(st1, Complete(0, Cancelled));
    var st2 := CompletePrompt(st1, 0, Cancelled);
    var st3 := Register(st2, 2);
    var st4 := BreakFirst(st3);
    st := AcceptSecond(st4);
  }
}
