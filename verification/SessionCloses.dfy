/**
 Who gets an answer to a request to close a session (crates/dwo-agent-service/src/session.rs, unload and the
 two places where a waiting close goes on). A close that waits is kept in one slot, and a second one can take
 the slot when the phase has left Closing in between.
 */
module SessionCloses {
  import opened Common
  import opened Events
  import opened Permission
  import opened SessionActor
  import opened SessionRuns

  /** The close waits to be answered. */
  function Waiting(s: Session, close: nat): nat {
    if !s.stopped && s.closing == Some(close) then 1 else 0
  }

  function AnswersTo(answers: seq<CloseAnswer>, close: nat): nat {
    if answers == [] then 0
    else AnswersTo(answers[..|answers| - 1], close) + if answers[|answers| - 1].close == close then 1 else 0
  }

  lemma OneMoreAnswer(answers: seq<CloseAnswer>, a: CloseAnswer, close: nat)
    ensures AnswersTo(answers + [a], close) == AnswersTo(answers, close) + if a.close == close then 1 else 0
  {
    assert (answers + [a])[..|answers|] == answers;
  }

  /** The actor takes a request to close. */
  function Asks(s: Session, m: Message, close: nat): nat {
    if !s.stopped && m.AskUnload? && m.reply == close then 1 else 0
  }

  /**
   The response channel of the waiting close is dropped unanswered: another close takes its place, or the
   actor stops because nobody holds its handle or because the session expires.
   */
  function Drops(s: Session, m: Message, close: nat): nat {
    if Waiting(s, close) == 1
       && ((m.AskUnload? && !s.phase.ClosingDown?) || m.HandlesDropped?
           || (m.TimerFired? && s.life.ephemeral && s.life.deleteAfter.Some? && s.life.deleteAfter.value <= m.now))
    then 1 else 0
  }

  function Asked(s: Session, ms: seq<Message>, close: nat): nat {
    if ms == [] then 0
    else
      var front := ms[..|ms| - 1];
      Asked(s, front, close) + Asks(Run(s, front), ms[|ms| - 1], close)
  }

  function Dropped(s: Session, ms: seq<Message>, close: nat): nat {
    if ms == [] then 0
    else
      var front := ms[..|ms| - 1];
      Dropped(s, front, close) + Drops(Run(s, front), ms[|ms| - 1], close)
  }

  /** What a request to close does to the slot and the answers. */
  lemma UnloadAnswers(s: Session, m: Message)
    requires m.AskUnload? && !s.stopped
    ensures var s' := Handle(s, m).0;
            if s.phase.ClosingDown? then
              !s'.stopped && s'.closing == s.closing
              && s'.closeAnswers == s.closeAnswers + [CloseAnswer(m.reply, ClosingAlready)]
            else if Busy(s) then
              !s'.stopped && s'.closing == Some(m.reply) && s'.closeAnswers == s.closeAnswers
            else
              s'.stopped
              && s'.closeAnswers == s.closeAnswers + [CloseAnswer(m.reply, if m.saved then Unloaded else NotSaved)]
  {
  }

  /** What the end of a turn or of a compaction does to them. */
  lemma EndAnswers(s: Session, m: Message)
    requires (m.TurnDone? || m.CompactionDone?) && !s.stopped
    ensures var s' := Handle(s, m).0;
            if s'.stopped then
              s.closing.Some?
              && s'.closeAnswers
                 == s.closeAnswers + [CloseAnswer(s.closing.value, if m.saved then Unloaded else NotSaved)]
            else s'.closing == s.closing && s'.closeAnswers == s.closeAnswers
  {
  }

  /** The other requests and events leave slot and answers alone, or stop the actor. */
  lemma OthersAnswerNobody(s: Session, m: Message)
    requires !s.stopped && !m.AskUnload? && !m.TurnDone? && !m.CompactionDone?
    ensures var s' := Handle(s, m).0;
            && s'.closeAnswers == s.closeAnswers && s'.closing == s.closing
            && (s'.stopped <==> m.HandlesDropped? || (m.TimerFired? && s.life.ephemeral && s.life.deleteAfter.Some?
                                                      && s.life.deleteAfter.value <= m.now))
  {
    if KeepsControl(m) {
      ContentKeepsControl(s, m);
    } else if m.AskPrompt? {
      PromptFrame(s, m.prompt, m.world);
    }
  }

  /** What a close gains by one message, by being asked, is what it loses, by an answer or by being dropped. */
  predicate AccountedFor(s: Session, m: Message, close: nat) {
    var s' := Handle(s, m).0;
    Waiting(s, close) + AnswersTo(s.closeAnswers, close) + Asks(s, m, close)
    == Waiting(s', close) + AnswersTo(s'.closeAnswers, close) + Drops(s, m, close)
  }

  lemma UnloadIsAccountedFor(s: Session, m: Message, close: nat)
    requires !s.stopped && m.AskUnload?
    ensures AccountedFor(s, m, close)
  {
    UnloadAnswers(s, m);
    OneMoreAnswer(s.closeAnswers, CloseAnswer(m.reply, ClosingAlready), close);
    OneMoreAnswer(s.closeAnswers, CloseAnswer(m.reply, if m.saved then Unloaded else NotSaved), close);
  }

  lemma EndIsAccountedFor(s: Session, m: Message, close: nat)
    requires !s.stopped && (m.TurnDone? || m.CompactionDone?)
    ensures AccountedFor(s, m, close)
  {
    EndAnswers(s, m);
    if s.closing.Some? {
      OneMoreAnswer(s.closeAnswers, CloseAnswer(s.closing.value, if m.saved then Unloaded else NotSaved), close);
    }
  }

  lemma OtherIsAccountedFor(s: Session, m: Message, close: nat)
    requires !s.stopped && !m.AskUnload? && !m.TurnDone? && !m.CompactionDone?
    ensures AccountedFor(s, m, close)
  {
    OthersAnswerNobody(s, m);
  }

  lemma StepIsAccountedFor(s: Session, m: Message, close: nat)
    ensures AccountedFor(s, m, close)
  {
    if !s.stopped {
      if m.AskUnload? {
        UnloadIsAccountedFor(s, m, close);
      } else if m.TurnDone? || m.CompactionDone? {
        EndIsAccountedFor(s, m, close);
      } else {
        OtherIsAccountedFor(s, m, close);
      }
    }
  }

  /** Over every run: each close the actor took has been answered once, or dropped once, or still waits. */
  lemma {:induction false} ClosesAreAccountedFor(s: Session, ms: seq<Message>, close: nat)
    ensures var now := Run(s, ms);
            Waiting(s, close) + AnswersTo(s.closeAnswers, close) + Asked(s, ms, close)
            == Waiting(now, close) + AnswersTo(now.closeAnswers, close) + Dropped(s, ms, close)
  {
    if ms != [] {
      ClosesAreAccountedFor(s, ms[..|ms| - 1], close);
      StepIsAccountedFor(Run(s, ms[..|ms| - 1]), ms[|ms| - 1], close);
    }
  }

  /** When the actor has stopped, a close that it took is answered exactly once iff it was never dropped. */
  lemma {:induction false} CloseIsAnsweredOnce(life: Life, transcript: seq<Payload>, ms: seq<Message>, close: nat)
    requires Asked(Init(life, transcript), ms, close) == 1
    ensures var now := Run(Init(life, transcript), ms);
            && AnswersTo(now.closeAnswers, close) <= 1
            && (now.stopped ==>
                  (AnswersTo(now.closeAnswers, close) == 1 <==> Dropped(Init(life, transcript), ms, close) == 0))
  {
    ClosesAreAccountedFor(Init(life, transcript), ms, close);
  }

  /** A second close after a cancel takes the first one's place: the first caller is never answered. */
  lemma {:induction false} ASecondCloseDropsTheFirst(s: Session, first: nat, second: nat, saved: bool)
    requires !s.stopped && !s.phase.ClosingDown? && s.active.Some? && s.closing.None? && first != second
    ensures Dropped(s, [AskUnload(first, saved), AskCancel(None), AskUnload(second, saved)], first) == 1
  {
    var a, b, c := AskUnload(first, saved), AskCancel(None), AskUnload(second, saved);
    assert [a, b, c][..2] == [a, b] && [a, b][..1] == [a] && [a][..0] == [];
    var s1 := Handle(s, a).0;
    assert Run(s, [a]) == s1 && s1.closing == Some(first) && s1.active.Some?;
    var s2 := Handle(s1, b).0;
    assert Run(s, [a, b]) == s2 && s2.closing == Some(first) && s2.phase.Cancelling?;
    assert Dropped(s, [], first) == 0 && Dropped(s, [a], first) == 0 && Dropped(s, [a, b], first) == 0;
  }
}
