/**
 Prompts sent into a running turn: the actor accepts them (crates/dwo-agent-service/src/session.rs) and puts
 them on a channel, and the task that runs the turn drains it (crates/dwo-agent-service/src/turn.rs). Both
 sides together are one sequence of actor messages and drains.
 */
module Steering {
  import opened Common
  import opened SessionActor
  import opened SessionRuns
  import opened SessionStream
  import opened TurnTask

  // ---------------------------------------------------------------- the task's side of the channel

  /** What happens to the channel, one message or drain at a time. */
  datatype Beat = Arrives(m: Steer) | Drains

  function Each(ms: seq<Steer>): seq<Beat> {
    if ms == [] then [] else [Arrives(ms[0])] + Each(ms[1..])
  }

  function After(t: Turn, beats: seq<Beat>): Turn {
    if beats == [] then t
    else
      var t1 := After(t, beats[..|beats| - 1]);
      match beats[|beats| - 1]
      case Arrives(m) => Arrive(t1, [m])
      case Drains => Drain(t1)
  }

  function RetryBeats(t: Turn, retries: seq<Retry>): seq<Beat>
    decreases retries
  {
    if retries == [] then []
    else
      var r := retries[0];
      var t1 := Drain(Arrive(t, r.arrivals));
      var first := Each(r.arrivals) + [Drains];
      if r.settled.Some? || r.waited.Some? then first
      else
        var t2 := Arrive(t1, r.late);
        var second := first + Each(r.late);
        if t2.queue == [] then second + RetryBeats(t2, retries[1..])
        else if r.lateSettled.Some? then second + [Drains]
        else second + [Drains] + RetryBeats(Drain(t2), retries[1..])
  }

  /** What the script of one round does to the channel. */
  function RoundBeats(t: Turn, r: Round): seq<Beat> {
    if r.cancelled || r.begun.Some? || r.compacted.Some? then []
    else
      var beats := RetryBeats(t, r.retries);
      if PlayRetries(t, r.retries).1.Some? || r.requested.Some? then beats
      else beats + Each(r.reply.arrivals) + [Drains]
  }

  function Beats(t: Turn, rounds: seq<Round>): seq<Beat>
    decreases rounds
  {
    if rounds == [] then []
    else
      var (t1, outcome) := PlayRound(t, rounds[0]);
      RoundBeats(t, rounds[0]) + if outcome.Some? then [] else Beats(t1, rounds[1..])
  }

  lemma {:induction false} AfterMore(t: Turn, a: seq<Beat>, b: seq<Beat>)
    ensures After(t, a + b) == After(After(t, a), b)
    decreases |b|
  {
    if b == [] {
      assert a + b == a;
    } else {
      AfterMore(t, a, b[..|b| - 1]);
      assert (a + b)[..|a + b| - 1] == a + b[..|b| - 1];
    }
  }

  lemma AfterOne(t: Turn, b: Beat)
    ensures After(t, [b]) == match b case Arrives(m) => Arrive(t, [m]) case Drains => Drain(t)
  {
    assert [b][..0] == [];
  }

  lemma {:induction false} AfterEach(t: Turn, ms: seq<Steer>)
    ensures After(t, Each(ms)) == Arrive(t, ms)
    decreases |ms|
  {
    if ms != [] {
      AfterMore(t, [Arrives(ms[0])], Each(ms[1..]));
      AfterOne(t, Arrives(ms[0]));
      AfterEach(Arrive(t, [ms[0]]), ms[1..]);
      assert [ms[0]] + ms[1..] == ms;
      Assoc(t.queue, [ms[0]], ms[1..]);
      Assoc(t.sent, [ms[0]], ms[1..]);
    } else {
      assert t.queue + [] == t.queue && t.sent + [] == t.sent;
    }
  }

  lemma AfterArrivalsAndDrain(t: Turn, ms: seq<Steer>)
    ensures After(t, Each(ms) + [Drains]) == Drain(Arrive(t, ms))
  {
    AfterMore(t, Each(ms), [Drains]);
    AfterEach(t, ms);
    AfterOne(Arrive(t, ms), Drains);
  }

  lemma {:induction false} RetriesAreBeats(t: Turn, retries: seq<Retry>)
    ensures After(t, RetryBeats(t, retries)) == PlayRetries(t, retries).0
    decreases retries
  {
    if retries != [] {
      var r := retries[0];
      var first := Each(r.arrivals) + [Drains];
      var t1 := Drain(Arrive(t, r.arrivals));
      AfterArrivalsAndDrain(t, r.arrivals);
      if r.settled.None? && r.waited.None? {
        LateBeats(t, t1, first, r, retries[1..]);
        var t2 := Arrive(t1, r.late);
        RetriesAreBeats(t2, retries[1..]);
        RetriesAreBeats(Drain(t2), retries[1..]);
      }
    }
  }

  /** What follows the first drain of a retry. */
  lemma LateBeats(t: Turn, t1: Turn, first: seq<Beat>, r: Retry, rest: seq<Retry>)
    requires After(t, first) == t1
    ensures var t2, second := Arrive(t1, r.late), first + Each(r.late);
            && After(t, second + RetryBeats(t2, rest)) == After(t2, RetryBeats(t2, rest))
            && After(t, second + [Drains]) == Drain(t2)
            && After(t, second + [Drains] + RetryBeats(Drain(t2), rest)) == After(Drain(t2), RetryBeats(Drain(t2), rest))
  {
    var t2, second := Arrive(t1, r.late), first + Each(r.late);
    AfterMore(t, first, Each(r.late));
    AfterEach(t1, r.late);
    AfterMore(t, second, RetryBeats(t2, rest));
    AfterMore(t, second, [Drains]);
    AfterOne(t2, Drains);
    AfterMore(t, second + [Drains], RetryBeats(Drain(t2), rest));
  }

  lemma {:induction false} RoundIsBeats(t: Turn, r: Round)
    ensures After(t, RoundBeats(t, r)) == PlayRound(t, r).0
  {
    RetriesAreBeats(t, r.retries);
    ReplyBeats(t, RetryBeats(t, r.retries), r);
  }

  /** The model's reply, after whatever went before it. */
  lemma {:induction false} ReplyBeats(t: Turn, beats: seq<Beat>, r: Round)
    ensures After(t, beats + Each(r.reply.arrivals) + [Drains]) == Replied(After(t, beats), r).0
  {
    AfterArrivalsAndDrain(After(t, beats), r.reply.arrivals);
    AfterMore(t, beats, Each(r.reply.arrivals) + [Drains]);
    Assoc(beats, Each(r.reply.arrivals), [Drains]);
  }

  /** The turn that a script plays is what its beats make of the channel. */
  lemma {:induction false} PlayIsBeats(t: Turn, rounds: seq<Round>)
    ensures After(t, Beats(t, rounds)) == Play(t, rounds).0
    decreases rounds
  {
    if rounds != [] {
      var (t1, outcome) := PlayRound(t, rounds[0]);
      RoundIsBeats(t, rounds[0]);
      if outcome.None? {
        AfterMore(t, RoundBeats(t, rounds[0]), Beats(t1, rounds[1..]));
        PlayIsBeats(t1, rounds[1..]);
      } else {
        assert RoundBeats(t, rounds[0]) + [] == RoundBeats(t, rounds[0]);
      }
    }
  }

  // ---------------------------------------------------------------- the actor's side

  /** The actor handles a message, or the turn's task drains the channel. */
  datatype Doing = Takes(m: Message) | TaskDrains

  /** What the actor sends into the turn while it handles a message. */
  function SentInto(s: Session, m: Message): seq<Steer> {
    if !s.stopped && m.AskPrompt? && s.active.Some? && PromptRefusal(s, m.prompt, m.world).None?
       && Handle(s, m).1.Accepted?
    then [Steer(m.prompt.IsUser(), m.prompt.content)] else []
  }

  function ActorAfter(s: Session, ds: seq<Doing>): Session {
    if ds == [] then s
    else
      var s1 := ActorAfter(s, ds[..|ds| - 1]);
      match ds[|ds| - 1]
      case Takes(m) => Handle(s1, m).0
      case TaskDrains => s1
  }

  /** What the channel sees of it. */
  function Channel(s: Session, ds: seq<Doing>): seq<Beat> {
    if ds == [] then []
    else
      var front := ds[..|ds| - 1];
      Channel(s, front)
      + match ds[|ds| - 1]
        case Takes(m) => Each(SentInto(ActorAfter(s, front), m))
        case TaskDrains => [Drains]
  }

  /** The turn stays the active one. */
  ghost predicate During(s: Session, ds: seq<Doing>) {
    s.active.Some? && forall k :: 0 <= k <= |ds| ==>
      && !ActorAfter(s, ds[..k]).stopped
      && IsActive(ActorAfter(s, ds[..k]), s.active.value.id)
  }

  lemma TurnTakes(s: Session, p: Prompt, w: PromptWorld)
    requires s.active.Some?
    ensures var (s', reply) := SteerTurn(s, p, w);
            && s'.active.Some?
            && s'.active.value.steered
               == s.active.value.steered + if reply.Accepted? then [Steer(p.IsUser(), p.content)] else []
  {
  }

  lemma PromptSteers(s: Session, m: Message)
    requires !s.stopped && s.active.Some? && m.AskPrompt?
    ensures var s' := Handle(s, m).0;
            s'.active.Some? && s'.active.value.steered == s.active.value.steered + SentInto(s, m)
  {
    if PromptRefusal(s, m.prompt, m.world).None? {
      TurnTakes(s, m.prompt, m.world);
      TurnTakes(s.(life := s.life.(deleteAfter := None, timer := None)), m.prompt, m.world);
    }
  }

  lemma UpdateSteersNothing(s: Session, m: Message)
    requires !s.stopped && s.active.Some? && KeepsControl(m)
    ensures var s' := Handle(s, m).0;
            s'.active.Some? && s'.active.value.steered == s.active.value.steered
  {
    match m
    case ToolsInterrupted(_, _, _) => InterruptionSteersNothing(s, m);
    case Housekeeping(payloads) => HousekeepingKeepsControl(s, payloads);
    case _ =>
  }

  lemma InterruptionSteersNothing(s: Session, m: Message)
    requires !s.stopped && s.active.Some? && m.ToolsInterrupted?
    ensures var s' := Handle(s, m).0;
            s'.active.Some? && s'.active.value.steered == s.active.value.steered
  {
    if IsActive(s, m.turn) {
      InterruptKeepsControl(s.(active := Some(s.active.value.(tools := []))), m.turn, s.active.value.tools,
                            m.status, m.recordedFlags);
    }
  }

  lemma OtherSteersNothing(s: Session, m: Message)
    requires !s.stopped && s.active.Some? && !m.AskPrompt? && !KeepsControl(m)
    ensures var s' := Handle(s, m).0;
            s'.active.Some? ==> s'.active.value.steered == s.active.value.steered
  {
  }

  /** One message adds to the active turn's prompts just what it sends into the channel. */
  lemma {:induction false} StepSteers(s: Session, m: Message)
    requires !s.stopped && s.active.Some?
    ensures var s' := Handle(s, m).0;
            s'.active.Some? ==> s'.active.value.steered == s.active.value.steered + SentInto(s, m)
  {
    if m.AskPrompt? {
      PromptSteers(s, m);
    } else if KeepsControl(m) {
      UpdateSteersNothing(s, m);
    } else {
      OtherSteersNothing(s, m);
    }
  }

  lemma {:induction false} DuringFront(s: Session, ds: seq<Doing>)
    requires During(s, ds) && ds != []
    ensures During(s, ds[..|ds| - 1])
    ensures var s1 := ActorAfter(s, ds[..|ds| - 1]);
            !s1.stopped && s1.active.Some? && ActorAfter(s, ds).active.Some?
  {
    var front := ds[..|ds| - 1];
    assert ds[..|ds|] == ds;
    forall k | 0 <= k <= |front|
      ensures !ActorAfter(s, front[..k]).stopped && IsActive(ActorAfter(s, front[..k]), s.active.value.id)
    {
      assert front[..k] == ds[..k];
    }
  }

  /** While a turn is active, what the actor counts as sent into it is what its channel has received, in order. */
  lemma {:induction false} SteeredIsSent(s: Session, t: Turn, ds: seq<Doing>)
    requires During(s, ds) && t.sent == s.active.value.steered
    ensures ActorAfter(s, ds).active.Some?
    ensures After(t, Channel(s, ds)).sent == ActorAfter(s, ds).active.value.steered
  {
    if ds == [] {
      assert ds[..0] == [];
    } else {
      var front := ds[..|ds| - 1];
      DuringFront(s, ds);
      SteeredIsSent(s, t, front);
      match ds[|ds| - 1]
      case Takes(m) =>
        var s1 := ActorAfter(s, front);
        StepSteers(s1, m);
        AfterMore(t, Channel(s, front), Each(SentInto(s1, m)));
        AfterEach(After(t, Channel(s, front)), SentInto(s1, m));
      case TaskDrains =>
        AfterMore(t, Channel(s, front), [Drains]);
        AfterOne(After(t, Channel(s, front)), Drains);
    }
  }

  /**
   Actor and task together, from the start of a turn, whatever the script of the turn and whatever the actor
   handles in between: the prompts accepted into the turn are, in order, those drained into its batches, then
   those still queued, then those accepted after the script's end. When the turn completes none is queued, so
   that a prompt goes unread exactly if it was accepted after the last drain.
   */
  lemma {:induction false} AcceptedPromptsAreReadOrQueued(
    s: Session, w: PromptWorld, ds: seq<Doing>, rounds: seq<Round>, late: seq<Steer>)
    requires s.active == Some(NewTurn(w)) && During(s, ds)
    requires Channel(s, ds) == Beats(Turn([], [], []), rounds) + Each(late)
    ensures var (t, outcome) := Play(Turn([], [], []), rounds);
            var steered := Steered(ActorAfter(s, ds));
            && steered == Flatten(t.batches) + t.queue + late
            && (outcome == Some(Completed) ==>
                  t.queue == [] && (steered == Flatten(t.batches) <==> late == []))
  {
    var start := Turn([], [], []);
    var (t, outcome) := Play(start, rounds);
    SteeredIsSent(s, start, ds);
    PlayIsBeats(start, rounds);
    AfterMore(start, Beats(start, rounds), Each(late));
    AfterEach(t, late);
    SteeringIsFifo(start, rounds);
  }

  function Steered(s: Session): seq<Steer> {
    if s.active.Some? then s.active.value.steered else []
  }
}
