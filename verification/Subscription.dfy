/**
 One subscriber's forwarding task: it reads the actor's broadcast and fills a bounded queue,
 dropping streamed deltas when the queue is full and later replacing them by one StepSnapshot
 (crates/dwo-agent-service/src/events.rs, `subscription`).

 `Forward` is the effect of one received event, `Pump` of a whole stream under an arbitrary
 schedule of queue states. `Feed` is the imperative task itself, proved to compute `Pump`.
 */
module Subscription {
  import opened Common
  import opened Events

  datatype TrySend = Sent | Full | Closed

  /**
   What the bounded queue answers while one event is handled: the outcome of a non-blocking send,
   and whether the receiver is still there for each of the two blocking sends.
   */
  datatype Moment = Moment(trySend: TrySend, flushed: bool, sent: bool)

  /** What the broadcast receiver yields: an event, or the end of the stream (lagged or closed). */
  datatype Received = Next(event: Event) | Lagged | SourceClosed

  datatype State = State(
    watermark: nat,
    step: Option<Step>,
    stepSeq: nat,
    owed: bool,
    delivered: seq<Event>,
    ended: bool)

  function Start(watermark: nat, step: Option<Step>): State {
    State(watermark, step, watermark, false, [], false)
  }

  function Summary(step: Step, seqNo: nat): Event {
    Event(seqNo, StepSnapshot(step))
  }

  function ForwardDelta(s: State, e: Event, m: Moment): State
    requires IsDelta(e.payload)
  {
    var step := ApplyDelta(s.step, e.payload);
    var s1 := s.(step := step, stepSeq := e.seqNo);
    match m.trySend
    case Sent => s1.(delivered := s.delivered + [if s.owed then Summary(step.value, e.seqNo) else e], owed := false)
    case Full => s1.(owed := true)
    case Closed => s1.(ended := true)
  }

  function Flush(s: State, m: Moment): State {
    if !s.owed then s
    else if s.step.None? then s.(owed := false)
    else if !m.flushed then s.(ended := true)
    else s.(owed := false, delivered := s.delivered + [Summary(s.step.value, s.stepSeq)])
  }

  function ForwardOther(s: State, e: Event, m: Moment): State {
    var s1 := Flush(s, m);
    if s1.ended then s1
    else
      var s2 := s1.(step := Checkpoint(s1.step, e.payload));
      if m.sent then s2.(delivered := s2.delivered + [e]) else s2.(ended := true)
  }

  /** One turn of the forwarding loop. */
  function Forward(s: State, r: Received, m: Moment): State {
    if s.ended then s
    else match r
      case Lagged => s.(ended := true)
      case SourceClosed => s.(ended := true)
      case Next(e) =>
        if e.seqNo <= s.watermark then s
        else if IsDelta(e.payload) then ForwardDelta(s, e, m)
        else ForwardOther(s, e, m)
  }

  function Pump(s: State, source: seq<Received>, schedule: seq<Moment>): State
    requires |source| == |schedule|
  {
    if source == [] then s
    else
      var n := |source| - 1;
      Forward(Pump(s, source[..n], schedule[..n]), source[n], schedule[n])
  }

  /** The events of the stream past the watermark: what the subscriber is meant to see. */
  function Newer(watermark: nat, source: seq<Received>): seq<Event> {
    if source == [] then []
    else
      var n := |source| - 1;
      var front := Newer(watermark, source[..n]);
      match source[n]
      case Next(e) => if e.seqNo <= watermark then front else front + [e]
      case _ => front
  }

  /** The number of the last event, or the floor if there is none. */
  function Top(floor: nat, events: seq<Event>): nat {
    if events == [] then floor else events[|events| - 1].seqNo
  }

  /** A channel hands out events in sequence order; the actor itself never sends summaries. */
  ghost predicate WellFormedSource(source: seq<Received>) {
    && (forall i :: 0 <= i < |source| && source[i].Next? ==> !source[i].event.payload.StepSnapshot?)
    && (forall i, j :: 0 <= i < j < |source| && source[i].Next? && source[j].Next?
                       ==> source[i].event.seqNo < source[j].event.seqNo)
  }

  lemma AscendingMore(floor: nat, events: seq<Event>, e: Event)
    requires Ascending(floor, events) && Top(floor, events) < e.seqNo
    ensures Ascending(floor, events + [e]) && Top(floor, events + [e]) == e.seqNo
  {
  }

  lemma {:induction false} NewerAscends(watermark: nat, source: seq<Received>)
    requires WellFormedSource(source)
    ensures Ascending(watermark, Newer(watermark, source))
    ensures forall e :: e in Newer(watermark, source) ==> Next(e) in source
    decreases |source|
  {
    if source != [] {
      var n := |source| - 1;
      NewerAscends(watermark, source[..n]);
      assert forall r :: r in source[..n] ==> r in source;
      if source[n].Next? && source[n].event.seqNo > watermark {
        var front := Newer(watermark, source[..n]);
        if front != [] {
          assert Next(front[|front| - 1]) in source[..n];
        }
        AscendingMore(watermark, front, source[n].event);
      }
    }
  }

  // ---------------------------------------------------------------- what every schedule keeps

  /**
   What holds of the forwarder after it saw the events `seen`, whatever the queue did in the meantime.
   A live forwarder knows the true step; all but the step always agrees; the step agrees unless a
   summary is owed, and an owed summary has a step to send and a number not yet used.
   */
  ghost predicate Faithful(s: State, start: Client, seen: seq<Event>) {
    && Ascending(s.watermark, seen)
    && Ascending(s.watermark, s.delivered)
    && Durable(s.delivered) <= Durable(seen)
    && (!s.ended ==>
          && s.step == Watch(start, seen).step
          && Durable(s.delivered) == Durable(seen)
          && Top(s.watermark, s.delivered) <= Top(s.watermark, seen)
          && s.stepSeq <= Top(s.watermark, seen)
          && (s.owed ==> s.step.Some? && Top(s.watermark, s.delivered) < s.stepSeq)
          && var replica := Watch(start, s.delivered);
             && replica.transcript == Watch(start, seen).transcript
             && replica.output == Watch(start, seen).output
             && (!s.owed ==> replica.step == s.step))
  }

  /** Sending one more delta or summary changes only the client's step. */
  lemma SendFaithful(s: State, start: Client, sent: Event)
    requires Ascending(s.watermark, s.delivered) && Top(s.watermark, s.delivered) < sent.seqNo
    requires IsDelta(sent.payload) || sent.payload.StepSnapshot?
    ensures var d := s.delivered + [sent];
            && Ascending(s.watermark, d) && Top(s.watermark, d) == sent.seqNo
            && Durable(d) == Durable(s.delivered)
            && Watch(start, d) == Watch(start, s.delivered).(step := Absorb(Watch(start, s.delivered).step, sent.payload))
  {
    AscendingMore(s.watermark, s.delivered, sent);
    WatchMore(start, s.delivered, sent);
    DurableMore(s.delivered, sent);
  }

  lemma {:induction false} SeenMore(s: State, start: Client, seen: seq<Event>, e: Event)
    requires Ascending(s.watermark, seen) && Top(s.watermark, seen) < e.seqNo
    ensures Ascending(s.watermark, seen + [e]) && Top(s.watermark, seen + [e]) == e.seqNo
    ensures Watch(start, seen + [e]) == See(Watch(start, seen), e.payload)
    ensures IsDelta(e.payload) ==>
              && Durable(seen + [e]) == Durable(seen)
              && Watch(start, seen + [e])
                 == Watch(start, seen).(step := ApplyDelta(Watch(start, seen).step, e.payload))
  {
    AscendingMore(s.watermark, seen, e);
    WatchMore(start, seen, e);
    DurableMore(seen, e);
  }

  /** A delta that finds room while nothing is owed goes out itself. */
  lemma {:induction false} DeltaGoesOut(s: State, start: Client, seen: seq<Event>, e: Event, m: Moment)
    requires !s.ended && Faithful(s, start, seen) && m.trySend.Sent? && !s.owed
    requires IsDelta(e.payload) && Top(s.watermark, seen) < e.seqNo
    ensures Faithful(ForwardDelta(s, e, m), start, seen + [e])
  {
    SeenMore(s, start, seen, e);
    SendFaithful(s, start, e);
  }

  /** A delta that finds room while a summary is owed goes out inside that summary. */
  lemma {:induction false} SummaryGoesOut(s: State, start: Client, seen: seq<Event>, e: Event, m: Moment)
    requires !s.ended && Faithful(s, start, seen) && m.trySend.Sent? && s.owed
    requires IsDelta(e.payload) && Top(s.watermark, seen) < e.seqNo
    ensures Faithful(ForwardDelta(s, e, m), start, seen + [e])
  {
    SeenMore(s, start, seen, e);
    SendFaithful(s, start, Summary(ApplyDelta(s.step, e.payload).value, e.seqNo));
  }

  /** A delta that finds the queue full is dropped, and a summary owed. */
  lemma {:induction false} DeltaDropped(s: State, start: Client, seen: seq<Event>, e: Event, m: Moment)
    requires !s.ended && Faithful(s, start, seen) && m.trySend.Full?
    requires IsDelta(e.payload) && Top(s.watermark, seen) < e.seqNo
    ensures Faithful(ForwardDelta(s, e, m), start, seen + [e])
  {
    SeenMore(s, start, seen, e);
    var s' := ForwardDelta(s, e, m);
    assert s' == s.(step := ApplyDelta(s.step, e.payload), stepSeq := e.seqNo, owed := true);
    assert s'.step == Watch(start, seen + [e]).step;
  }

  lemma {:induction false} DeltaRefused(s: State, start: Client, seen: seq<Event>, e: Event, m: Moment)
    requires !s.ended && Faithful(s, start, seen) && m.trySend.Closed?
    requires IsDelta(e.payload) && Top(s.watermark, seen) < e.seqNo
    ensures Faithful(ForwardDelta(s, e, m), start, seen + [e])
  {
    AscendingMore(s.watermark, seen, e);
    DurableMore(seen, e);
  }

  lemma {:induction false} DeltaFaithful(s: State, start: Client, seen: seq<Event>, e: Event, m: Moment)
    requires !s.ended && Faithful(s, start, seen)
    requires IsDelta(e.payload) && Top(s.watermark, seen) < e.seqNo
    ensures Faithful(ForwardDelta(s, e, m), start, seen + [e])
  {
    if m.trySend.Full? {
      DeltaDropped(s, start, seen, e, m);
    } else if m.trySend.Closed? {
      DeltaRefused(s, start, seen, e, m);
    } else if s.owed {
      SummaryGoesOut(s, start, seen, e, m);
    } else {
      DeltaGoesOut(s, start, seen, e, m);
    }
  }

  lemma {:induction false} FlushFaithful(s: State, start: Client, seen: seq<Event>, m: Moment)
    requires !s.ended && Faithful(s, start, seen)
    ensures Faithful(Flush(s, m), start, seen)
    ensures !Flush(s, m).ended ==> !Flush(s, m).owed
  {
    if s.owed {
      var sent := Summary(s.step.value, s.stepSeq);
      AscendingMore(s.watermark, s.delivered, sent);
      WatchMore(start, s.delivered, sent);
      DurableMore(s.delivered, sent);
    }
  }

  lemma {:induction false} OtherFaithful(s: State, start: Client, seen: seq<Event>, e: Event, m: Moment)
    requires !s.ended && Faithful(s, start, seen)
    requires !IsDelta(e.payload) && !e.payload.StepSnapshot? && Top(s.watermark, seen) < e.seqNo
    ensures Faithful(ForwardOther(s, e, m), start, seen + [e])
  {
    FlushFaithful(s, start, seen, m);
    var s1 := Flush(s, m);
    AscendingMore(s.watermark, seen, e);
    WatchMore(start, seen, e);
    DurableMore(seen, e);
    if !s1.ended {
      AscendingMore(s.watermark, s.delivered, e);
      AscendingMore(s.watermark, s1.delivered, e);
      WatchMore(start, s1.delivered, e);
      DurableMore(s1.delivered, e);
    }
  }

  lemma {:induction false} ForwardFaithful(s: State, start: Client, seen: seq<Event>, e: Event, m: Moment)
    requires Faithful(s, start, seen)
    requires !e.payload.StepSnapshot? && s.watermark < e.seqNo && Top(s.watermark, seen) < e.seqNo
    ensures Faithful(Forward(s, Next(e), m), start, seen + [e])
  {
    if s.ended {
      AscendingMore(s.watermark, seen, e);
      DurableMore(seen, e);
    } else if IsDelta(e.payload) {
      DeltaFaithful(s, start, seen, e, m);
    } else {
      OtherFaithful(s, start, seen, e, m);
    }
  }

  lemma NewerMore(watermark: nat, source: seq<Received>)
    requires source != [] && WellFormedSource(source)
    ensures WellFormedSource(source[..|source| - 1])
    ensures var last := source[|source| - 1];
            var front := Newer(watermark, source[..|source| - 1]);
            if last.Next? && last.event.seqNo > watermark then
              && Newer(watermark, source) == front + [last.event]
              && Top(watermark, front) < last.event.seqNo
              && !last.event.payload.StepSnapshot?
            else Newer(watermark, source) == front
  {
    var n := |source| - 1;
    var front := Newer(watermark, source[..n]);
    NewerAscends(watermark, source[..n]);
    if front != [] {
      assert Next(front[|front| - 1]) in source[..n];
    }
  }

  /** One more thing received, whatever it is. */
  lemma {:induction false} ReceivedFaithful(s: State, start: Client, seen: seq<Event>, r: Received, m: Moment)
    requires Faithful(s, start, seen)
    requires r.Next? && r.event.seqNo > s.watermark ==>
               Top(s.watermark, seen) < r.event.seqNo && !r.event.payload.StepSnapshot?
    ensures Forward(s, r, m).watermark == s.watermark
    ensures Faithful(Forward(s, r, m), start,
                     if r.Next? && r.event.seqNo > s.watermark then seen + [r.event] else seen)
  {
    if r.Next? && r.event.seqNo > s.watermark {
      ForwardFaithful(s, start, seen, r.event, m);
    }
  }

  /**
   For every stream and every schedule of full, free and closed moments, from any watermark: the
   forwarding task stays faithful to the events past its watermark.
   */
  lemma {:induction false} PumpFaithful(start: Client, watermark: nat, source: seq<Received>, schedule: seq<Moment>)
    requires |source| == |schedule| && WellFormedSource(source)
    ensures Faithful(Pump(Start(watermark, start.step), source, schedule), start, Newer(watermark, source))
    ensures Pump(Start(watermark, start.step), source, schedule).watermark == watermark
    decreases |source|
  {
    if source != [] {
      var n := |source| - 1;
      NewerMore(watermark, source);
      PumpFaithful(start, watermark, source[..n], schedule[..n]);
      var s := Pump(Start(watermark, start.step), source[..n], schedule[..n]);
      ReceivedFaithful(s, start, Newer(watermark, source[..n]), source[n], schedule[n]);
    }
  }

  /**
   The lossy, coalescing stream rebuilds the same client state as the full stream: step, transcript
   and terminal bytes, whenever no summary is owed; and everything but the step at all times.
   */
  lemma {:induction false} CoalescedStreamRebuildsTheState(
    start: Client, watermark: nat, source: seq<Received>, schedule: seq<Moment>)
    requires |source| == |schedule| && WellFormedSource(source)
    ensures var s := Pump(Start(watermark, start.step), source, schedule);
            var full := Watch(start, Newer(watermark, source));
            !s.ended ==>
              && Watch(start, s.delivered).transcript == full.transcript
              && Watch(start, s.delivered).output == full.output
              && (!s.owed ==> Watch(start, s.delivered) == full)
  {
    PumpFaithful(start, watermark, source, schedule);
  }

  /** Delivered numbers strictly increase past the watermark, and nothing durable is lost or moved. */
  lemma {:induction false} DeliveryIsOrderedAndComplete(
    start: Client, watermark: nat, source: seq<Received>, schedule: seq<Moment>)
    requires |source| == |schedule| && WellFormedSource(source)
    ensures var s := Pump(Start(watermark, start.step), source, schedule);
            var wanted := Durable(Newer(watermark, source));
            && Ascending(watermark, s.delivered)
            && Durable(s.delivered) <= wanted
            && (!s.ended ==> Durable(s.delivered) == wanted)
            && (!s.ended && s.owed ==> s.step.Some?)
  {
    PumpFaithful(start, watermark, source, schedule);
  }

  /** A debt does not outlive the next moment at which the queue takes what it is offered. */
  lemma DebtIsRepaid(s: State, start: Client, seen: seq<Event>, e: Event, m: Moment)
    requires !s.ended && Faithful(s, start, seen)
    requires Top(s.watermark, seen) < e.seqNo && !e.payload.StepSnapshot?
    requires IsDelta(e.payload) ==> m.trySend.Sent?
    requires !IsDelta(e.payload) ==> m.flushed && m.sent
    ensures var s' := Forward(s, Next(e), m);
            !s'.ended && !s'.owed && Watch(start, s'.delivered) == Watch(start, seen + [e])
  {
    assert s.watermark < e.seqNo;
    if IsDelta(e.payload) {
      DeltaFaithful(s, start, seen, e, m);
    } else {
      FlushFaithful(s, start, seen, m);
      OtherFaithful(s, start, seen, e, m);
    }
  }

  /** The loop ends exactly when the broadcast lags or closes, or a send finds the subscriber gone. */
  lemma EndsExactlyWhen(s: State, r: Received, m: Moment)
    ensures Forward(s, r, m).ended
      <==> s.ended || !r.Next?
           || (r.event.seqNo > s.watermark
               && if IsDelta(r.event.payload) then m.trySend.Closed?
                  else (s.owed && s.step.Some? && !m.flushed) || !m.sent)
  {
  }

  // ---------------------------------------------------------------- a receiver that lags

  /** A broadcast receiver that yields these events in order. */
  function Yield(events: seq<Event>): (source: seq<Received>)
    ensures |source| == |events|
    ensures forall i :: 0 <= i < |events| ==> source[i] == Next(events[i])
  {
    seq(|events|, i requires 0 <= i < |events| => Next(events[i]))
  }

  /** What a receiver may yield of these events: some of them in order, with a Lagged for every stretch missed. */
  ghost predicate MayLag(events: seq<Event>, source: seq<Received>)
    decreases |source|
  {
    source == [] || match source[0]
      case Next(e) => events != [] && e == events[0] && MayLag(events[1..], source[1..])
      case Lagged => exists n :: 0 <= n <= |events| && MayLag(events[n..], source[1..])
      case SourceClosed => |source| == 1
  }

  /** How much comes before the first gap, or the end. */
  function Intact(source: seq<Received>): (k: nat)
    ensures k <= |source| && (k < |source| ==> !source[k].Next?)
    ensures forall i :: 0 <= i < k ==> source[i].Next?
  {
    if source == [] || !source[0].Next? then 0 else 1 + Intact(source[1..])
  }

  lemma {:induction false} IntactIsYield(events: seq<Event>, source: seq<Received>)
    requires MayLag(events, source)
    ensures var k := Intact(source);
            k <= |events| && source[..k] == Yield(events[..k])
    decreases |source|
  {
    if source != [] && source[0].Next? {
      IntactIsYield(events[1..], source[1..]);
      var k := Intact(source[1..]);
      forall i | 0 <= i < k + 1 ensures source[i] == Next(events[i]) {
        assert i > 0 ==> source[i] == source[1..][..k][i - 1] == Next(events[1..][..k][i - 1]);
      }
    }
  }

  /** After a gap, or the end, nothing more is delivered: the state is that of what came before. */
  lemma {:induction false} NothingAfterAGap(s: State, source: seq<Received>, schedule: seq<Moment>, k: nat)
    requires |source| == |schedule| && k < |source| && !source[k].Next?
    ensures Pump(s, source, schedule).ended
    ensures Pump(s, source, schedule).delivered == Pump(s, source[..k], schedule[..k]).delivered
    decreases |source|
  {
    var n := |source| - 1;
    if k < n {
      NothingAfterAGap(s, source[..n], schedule[..n], k);
      assert source[..n][..k] == source[..k] && schedule[..n][..k] == schedule[..k];
    }
  }

  lemma {:induction false} DurablePrefix(a: seq<Event>, b: seq<Event>)
    requires a <= b
    ensures Durable(a) <= Durable(b)
    decreases |b|
  {
    if |a| < |b| {
      DurablePrefix(a, b[..|b| - 1]);
    } else {
      assert a == b;
    }
  }

  lemma {:induction false} NewerPrefix(watermark: nat, events: seq<Event>, k: nat)
    requires k <= |events|
    ensures Newer(watermark, Yield(events[..k])) <= Newer(watermark, Yield(events))
    decreases |events|
  {
    var n := |events| - 1;
    if k <= n {
      NewerPrefix(watermark, events[..n], k);
      assert events[..n][..k] == events[..k];
      assert Yield(events)[..n] == Yield(events[..n]);
    } else {
      assert events[..k] == events;
    }
  }

  /**
   Whatever stretches the receiver misses and whatever the queue does: what is delivered, but for deltas and
   summaries, is a beginning of what the broadcast holds past the watermark, without a gap. And a receiver that
   missed something has ended.
   */
  lemma {:induction false} LaggingLeavesNoGap(
    start: Client, watermark: nat, events: seq<Event>, source: seq<Received>, schedule: seq<Moment>)
    requires |source| == |schedule| && MayLag(events, source) && WellFormedSource(Yield(events))
    ensures var s := Pump(Start(watermark, start.step), source, schedule);
            && Durable(s.delivered) <= Durable(Newer(watermark, Yield(events)))
            && (Intact(source) < |source| ==> s.ended)
  {
    var k := Intact(source);
    IntactIsYield(events, source);
    assert WellFormedSource(Yield(events[..k]));
    DeliveryIsOrderedAndComplete(start, watermark, source[..k], schedule[..k]);
    NewerPrefix(watermark, events, k);
    DurablePrefix(Newer(watermark, Yield(events[..k])), Newer(watermark, Yield(events)));
    if k < |source| {
      NothingAfterAGap(Start(watermark, start.step), source, schedule, k);
    } else {
      assert source[..k] == source && schedule[..k] == schedule;
    }
  }

  // ---------------------------------------------------------------- the forwarder itself

  class Forwarder {
    const watermark: nat
    var activeStep: Option<Step>
    var stepSeq: nat
    var needsStepSnapshot: bool
    var events: seq<Event>  // everything put on the bounded channel so far
    var ended: bool

    ghost function Now(): State
      reads this
    {
      State(watermark, activeStep, stepSeq, needsStepSnapshot, events, ended)
    }

    constructor (watermark: nat, activeStep: Option<Step>)
      ensures Now() == Start(watermark, activeStep)
    {
      this.watermark := watermark;
      this.activeStep := activeStep;
      stepSeq, needsStepSnapshot, events, ended := watermark, false, [], false;
    }

    /** apply_step_delta: false, and no change, unless the payload is a streamed delta. */
    method ApplyStepDelta(p: Payload) returns (applied: bool)
      modifies this`activeStep
      ensures applied == IsDelta(p)
      ensures activeStep == if IsDelta(p) then ApplyDelta(old(activeStep), p) else old(activeStep)
    {
      if !IsDelta(p) {
        return false;
      }
      if activeStep.None? || activeStep.value.turn != p.turn || activeStep.value.stepId != p.stepId {
        activeStep := Some(FreshStep(p.turn, p.stepId));
      }
      var current := activeStep.value;
      current := current.(revision := p.revision);
      if p.ReasoningDelta? {
        current := current.(thoughtId := Some(p.message), reasoning := current.reasoning + p.delta);
      } else {
        current := current.(messageId := Some(p.message), response := current.response + p.delta);
      }
      activeStep := Some(current);
      return true;
    }

    /** update_step_checkpoint */
    method UpdateStepCheckpoint(p: Payload)
      modifies this`activeStep
      ensures activeStep == Checkpoint(old(activeStep), p)
    {
      if p.TurnStarted? {
        activeStep := Some(FreshStep(p.turn, 1));
      } else if activeStep.Some? {
        var current := activeStep.value;
        if (p.AssistantCompleted? || p.AssistantInterrupted?) && current.turn == p.turn {
          current := current.(stepId := current.stepId + 1, revision := 0, messageId := None, thoughtId := None);
          activeStep := Some(current.(reasoning := "", response := ""));
        } else if IsTurnEnd(p) && current.turn == p.turn {
          activeStep := None;
        }
      }
    }

    /** try_send_step_snapshot */
    method TrySendStepSnapshot(queue: TrySend) returns (outcome: TrySend)
      modifies this`events
      ensures outcome == if activeStep.None? then Sent else queue
      ensures events == if activeStep.Some? && queue.Sent?
                        then old(events) + [Summary(activeStep.value, stepSeq)] else old(events)
    {
      if activeStep.None? {
        return Sent;
      }
      if queue.Sent? {
        events := events + [Event(stepSeq, StepSnapshot(activeStep.value))];
      }
      return queue;
    }

    method Handle(r: Received, m: Moment)
      requires !ended
      modifies this
      ensures Now() == Forward(old(Now()), r, m)
    {
      if !r.Next? {
        ended := true;
        return;
      }
      var event := r.event;
      if event.seqNo <= watermark {
        return;
      }
      var applied := ApplyStepDelta(event.payload);
      if applied {
        stepSeq := event.seqNo;
        if needsStepSnapshot {
          var outcome := TrySendStepSnapshot(m.trySend);
          match outcome
          case Sent => needsStepSnapshot := false;
          case Full =>
          case Closed => ended := true;
        } else {
          match m.trySend
          case Sent => events := events + [event];
          case Full => needsStepSnapshot := true;
          case Closed => ended := true;
        }
        return;
      }
      if needsStepSnapshot {
        if activeStep.Some? {
          if !m.flushed {
            ended := true;
            return;
          }
          events := events + [Event(stepSeq, StepSnapshot(activeStep.value))];
        }
        needsStepSnapshot := false;
      }
      UpdateStepCheckpoint(event.payload);
      if m.sent {
        events := events + [event];
      } else {
        ended := true;
      }
    }

    /** The forwarding loop over a stream; it stops at the first break. */
    method Feed(source: seq<Received>, schedule: seq<Moment>)
      requires |source| == |schedule| && !ended
      modifies this
      ensures Now() == Pump(old(Now()), source, schedule)
    {
      var i := 0;
      while i < |source| && !ended
        invariant 0 <= i <= |source|
        invariant Now() == Pump(old(Now()), source[..i], schedule[..i])
      {
        Handle(source[i], schedule[i]);
        assert source[..i + 1][..i] == source[..i] && schedule[..i + 1][..i] == schedule[..i];
        i := i + 1;
      }
      PumpEnded(old(Now()), source, schedule, i);
      assert source[..|source|] == source && schedule[..|source|] == schedule;
    }
  }

  lemma {:induction false} PumpEnded(s: State, source: seq<Received>, schedule: seq<Moment>, i: nat)
    requires |source| == |schedule| && i <= |source|
    requires i < |source| ==> Pump(s, source[..i], schedule[..i]).ended
    ensures Pump(s, source, schedule) == Pump(s, source[..i], schedule[..i])
    decreases |source|
  {
    if i == |source| {
      assert source[..i] == source && schedule[..i] == schedule;
    } else {
      var n := |source| - 1;
      assert source[..n][..i] == source[..i] && schedule[..n][..i] == schedule[..i];
      PumpEnded(s, source[..n], schedule[..n], i);
    }
  }
}
