/**
 The adapter's own state (crates/dwo-acp/src/lib.rs, AcpRuntime and PendingCancels; acp_v1.rs, run_prompt),
 with one method for every stretch of code between two await points. Each does what the protocol says.
 */
module AcpAdapter {
  import opened Common
  import opened DeferredCancel

  class PendingCancels {
    var sessions: map<SessionId, Token>
    var next: nat

    constructor ()
      ensures sessions == map[] && next == 0
    {
      sessions := map[];
      next := 0;
    }

    /** A new cancel for the session, unless one is pending. */
    method Schedule(session: SessionId) returns (t: Option<Token>)
      modifies this
      ensures t.None? <==> session in old(sessions)
      ensures t.None? ==> sessions == old(sessions) && next == old(next)
      ensures t.Some? ==> t.value == Token(session, old(next)) && next == old(next) + 1
                          && sessions == old(sessions)[session := t.value]
    {
      if session in sessions {
        return None;
      }
      var cancellation := Token(session, next);
      next := next + 1;
      sessions := sessions[session := cancellation];
      return Some(cancellation);
    }

    /** Takes the pending cancel of the session away, for its caller to cancel the timer. */
    method Consume(session: SessionId) returns (t: Option<Token>)
      modifies this`sessions
      ensures t == if session in old(sessions) then Some(old(sessions)[session]) else None
      ensures sessions == old(sessions) - {session}
    {
      if session !in sessions {
        return None;
      }
      t := Some(sessions[session]);
      sessions := sessions - {session};
    }

    /** Removes this very cancel, and no newer one. */
    method FinishCancel(t: Token) returns (removed: bool)
      modifies this`sessions
      ensures removed <==> t.session in old(sessions) && old(sessions)[t.session] == t
      ensures sessions == if removed then old(sessions) - {t.session} else old(sessions)
    {
      if t.session in sessions && sessions[t.session] == t {
        sessions := sessions - {t.session};
        return true;
      }
      return false;
    }
  }

  class Adapter {
    const pendingCancels: PendingCancels
    var spawning: set<Token>
    var repeats: multiset<SessionId>
    var timers: set<Token>
    var cancelled: set<Token>
    var tasks: map<PromptId, Task>
    var waiters: map<SessionId, PromptId>
    var daemonCancels: nat
    ghost var issued: set<Token>
    ghost var fates: seq<Fate>
    ghost var answers: seq<(PromptId, Answer)>

    ghost function Now(): State
      reads this, pendingCancels
    {
      State(pendingCancels.sessions, pendingCancels.next, spawning, repeats, timers, cancelled, tasks, waiters,
            daemonCancels, issued, fates, answers)
    }

    constructor ()
      ensures fresh(pendingCancels) && Now() == START
    {
      pendingCancels := new PendingCancels();
      spawning, repeats, timers, cancelled := {}, multiset{}, {}, {};
      tasks, waiters := map[], map[];
      daemonCancels := 0;
      issued, fates, answers := {}, [], [];
    }

    /** cancel_session_now: the request to the daemon. */
    method CancelSessionNow()
      modifies this`daemonCancels
      ensures daemonCancels == old(daemonCancels) + 1
    {
      daemonCancels := daemonCancels + 1;
    }

    method CompletePromptOf(session: SessionId, completion: Completion)
      modifies this`tasks, this`waiters
      ensures Now() == CompletePrompt(old(Now()), session, completion)
    {
      if session in waiters && waiters[session] in tasks {
        var p := waiters[session];
        waiters := waiters - {session};
        tasks := tasks[p := tasks[p].(mail := Completed(completion))];
      }
    }

    /** defer_cancel_v1, up to the first await: a second cancel while one is pending adds none, but goes on too. */
    method CancelArrives(session: SessionId)
      modifies this, pendingCancels
      ensures Now() == OnCancelArrives(old(Now()), session)
    {
      var t := pendingCancels.Schedule(session);
      if t.Some? {
        spawning := spawning + {t.value};
        issued := issued + {t.value};
      } else {
        repeats := repeats + multiset{session};
      }
    }

    /** The rest of a second cancel: the waiting prompt is told again. */
    method RepeatProceeds(session: SessionId)
      modifies this
      ensures Now() == OnRepeatProceeds(old(Now()), session)
    {
      if session in repeats {
        CompletePromptOf(session, Cancelled);
        repeats := repeats - multiset{session};
      }
    }

    /** The rest of defer_cancel_v1: the waiting prompt is told, and the timer spawned. */
    method CancelProceeds(t: Token, spawned: bool)
      modifies this, pendingCancels
      ensures Now() == OnCancelProceeds(old(Now()), t, spawned)
    {
      if t !in spawning {
        return;
      }
      CompletePromptOf(t.session, Cancelled);
      spawning := spawning - {t};
      if spawned {
        timers := timers + {t};
      } else {
        var removed := pendingCancels.FinishCancel(t);
        if removed {
          fates := fates + [Fate(t, Unsent)];
        }
      }
    }

    /** The timer task, when the grace period is over. */
    method TimerElapses(t: Token)
      modifies this, pendingCancels
      ensures Now() == OnTimerElapses(old(Now()), t)
    {
      if t !in timers {
        return;
      }
      timers := timers - {t};
      var removed := pendingCancels.FinishCancel(t);
      if removed {
        CancelSessionNow();
        fates := fates + [Fate(t, SentByTimer)];
      }
    }

    /** run_prompt, up to preparing the observer. */
    method PromptArrives(p: PromptId, session: SessionId, command: Command)
      modifies this, pendingCancels
      ensures Now() == OnPromptArrives(old(Now()), p, session, command)
    {
      if p in tasks {
        return;
      }
      var t := pendingCancels.Consume(session);
      if t.Some? {
        cancelled := cancelled + {t.value};
        if command != Plain {
          fates := fates + [Fate(t.value, DroppedByCommand)];
        }
      }
      var held := if command == Plain then t else None;
      tasks := tasks[p := Task(session, command, held, Preparing, NoMail)];
      assert old(session !in pendingCancels.sessions) ==> pendingCancels.sessions == old(pendingCancels.sessions);
    }

    method Respond(p: PromptId, a: Answer)
      requires p in tasks
      modifies this`tasks, this`answers
      ensures Now() == AnswerPrompt(old(Now()), p, a)
    {
      tasks := tasks[p := tasks[p].(stage := Answered)];
      answers := answers + [(p, a)];
    }

    /** forward_rejected_replacement, then the response. */
    method RejectPrompt(p: PromptId, a: Answer)
      requires p in tasks
      modifies this`tasks, this`answers, this`fates, this`daemonCancels
      ensures Now() == Reject(old(Now()), p, a)
    {
      var held := tasks[p].held;
      if held.Some? {
        CancelSessionNow();
        tasks := tasks[p := tasks[p].(held := None)];
        fates := fates + [Fate(held.value, Forwarded)];
      }
      Respond(p, a);
    }

    method ObserverPrepared(p: PromptId, ok: bool)
      modifies this
      ensures Now() == OnPrepared(old(Now()), p, ok)
    {
      if p in tasks && tasks[p].stage == Preparing {
        if ok {
          tasks := tasks[p := tasks[p].(stage := Activating)];
        } else {
          RejectPrompt(p, Error);
        }
      }
    }

    method ObserverActivated(p: PromptId, ok: bool)
      modifies this
      ensures Now() == OnActivated(old(Now()), p, ok)
    {
      if p in tasks && tasks[p].stage == Activating {
        if !ok {
          RejectPrompt(p, Error);
          return;
        }
        var command := tasks[p].command;
        var stage := Enlisting;
        if command == Status || command == CancelTurn {
          stage := Local;
        } else if command == ResumeTurn {
          stage := CheckingTurn;
        }
        tasks := tasks[p := tasks[p].(stage := stage)];
      }
    }

    method AnswerLocally(p: PromptId, ok: bool)
      modifies this
      ensures Now() == OnLocalDone(old(Now()), p, ok)
    {
      if p in tasks && tasks[p].stage == Local {
        var command := tasks[p].command;
        if command == CancelTurn {
          CancelSessionNow();
        }
        Respond(p, LocalAnswer(command, ok));
      }
    }

    method CheckTurn(p: PromptId, busy: Option<bool>)
      modifies this
      ensures Now() == OnTurnChecked(old(Now()), p, busy)
    {
      if p in tasks && tasks[p].stage == CheckingTurn {
        if busy.None? {
          Respond(p, Error);
        } else if busy.value {
          Respond(p, Stopped(EndTurn));
        } else {
          tasks := tasks[p := tasks[p].(stage := Enlisting)];
        }
      }
    }

    /** Registers the prompt as the session's waiter, unless there is one. */
    method EnlistPrompt(p: PromptId)
      modifies this
      ensures Now() == OnEnlist(old(Now()), p)
    {
      if p in tasks && tasks[p].stage == Enlisting {
        if tasks[p].session in waiters {
          RejectPrompt(p, Error);
        } else {
          waiters := waiters[tasks[p].session := p];
          tasks := tasks[p := tasks[p].(stage := Submitting)];
        }
      }
    }

    method RemoveWaiter(session: SessionId)
      modifies this`tasks, this`waiters
      ensures Now() == Unlist(old(Now()), session)
      ensures tasks.Keys == old(tasks.Keys)
    {
      if session in waiters && waiters[session] in tasks {
        var p := waiters[session];
        waiters := waiters - {session};
        tasks := tasks[p := tasks[p].(mail := SenderDropped)];
      }
    }

    /** The daemon's verdict on the submitted prompt. */
    method PromptSubmitted(p: PromptId, verdict: Verdict)
      modifies this
      ensures Now() == OnSubmitted(old(Now()), p, verdict)
    {
      if p in tasks && tasks[p].stage == Submitting {
        if verdict == Accepted {
          var held := tasks[p].held;
          if held.Some? {
            fates := fates + [Fate(held.value, Replaced)];
          }
          tasks := tasks[p := tasks[p].(held := None, stage := Waiting)];
        } else {
          RemoveWaiter(tasks[p].session);
          RejectPrompt(p, if verdict == Refused then Stopped(EndTurn) else Error);
        }
      }
    }

    method CollectCompletion(p: PromptId)
      modifies this
      ensures Now() == OnCollect(old(Now()), p)
    {
      if p in tasks && tasks[p].stage == Waiting && tasks[p].mail != NoMail {
        Respond(p, MailAnswer(tasks[p].mail));
      }
    }

    /** The stretches of a prompt's own task before it is known what to do with it. */
    method ServeArriving(e: Event)
      requires e.PromptArrives? || e.Prepared? || e.Activated?
      modifies this, pendingCancels
      ensures Now() == After(old(Now()), e)
    {
      match e {
        case PromptArrives(p, s, command) => PromptArrives(p, s, command);
        case Prepared(p, ok) => ObserverPrepared(p, ok);
        case Activated(p, ok) => ObserverActivated(p, ok);
      }
    }

    /** Those of a prompt that is answered without the daemon, if it can be. */
    method ServeLocally(e: Event)
      requires e.LocalDone? || e.TurnChecked?
      modifies this
      ensures Now() == After(old(Now()), e)
    {
      match e {
        case LocalDone(p, ok) => AnswerLocally(p, ok);
        case TurnChecked(p, busy) => CheckTurn(p, busy);
      }
    }

    /** Those of a prompt that is sent to the daemon. */
    method ServeSending(e: Event)
      requires e.Enlist? || e.Submitted? || e.Collect?
      modifies this
      ensures Now() == After(old(Now()), e)
    {
      match e {
        case Enlist(p) => EnlistPrompt(p);
        case Submitted(p, verdict) => PromptSubmitted(p, verdict);
        case Collect(p) => CollectCompletion(p);
      }
    }

    /** The stretches of a cancel and its timer, and a completion. */
    method ServeCancel(e: Event)
      requires e.CancelArrives? || e.CancelProceeds? || e.RepeatProceeds? || e.TimerElapses? || e.TimerSeesCancel?
               || e.Complete?
      modifies this, pendingCancels
      ensures Now() == After(old(Now()), e)
    {
      match e {
        case CancelArrives(s) => CancelArrives(s);
        case CancelProceeds(t, spawned) => CancelProceeds(t, spawned);
        case RepeatProceeds(s) => RepeatProceeds(s);
        case TimerElapses(t) => TimerElapses(t);
        case TimerSeesCancel(t) => if t in cancelled { timers := timers - {t}; }
        case Complete(s, c) => CompletePromptOf(s, c);
      }
    }

    /** Any of them. */
    method Serve(e: Event)
      modifies this, pendingCancels
      ensures Now() == After(old(Now()), e)
    {
      if e.PromptArrives? || e.Prepared? || e.Activated? {
        ServeArriving(e);
      } else if e.LocalDone? || e.TurnChecked? {
        ServeLocally(e);
      } else if e.Enlist? || e.Submitted? || e.Collect? {
        ServeSending(e);
      } else {
        ServeCancel(e);
      }
    }
  }
}
