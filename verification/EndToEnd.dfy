/**
 The whole path from the actor to a subscriber: the actor runs, its broadcast is forwarded through a
 bounded queue under any schedule, and the client folds what is delivered onto its snapshot.
 */
module EndToEnd {
  import opened Common
  import opened Events
  import opened SessionActor
  import opened SessionRuns
  import opened SessionStream
  import opened Following
  import PermissionView
  import SessionEmissions
  import SessionHistory
  import Subscription
  import TerminalCache
  import Tools

  lemma {:induction false} NoSummaries(events: seq<Event>, k: nat)
    requires !SessionHistory.Scan(events).place.Broken? && k < |events|
    ensures !events[k].payload.StepSnapshot? && events[k].seqNo == k + 1
  {
    SessionHistory.UnbrokenCheck(events, k);
    SessionHistory.NumbersAreContiguous(events, k);
  }

  lemma {:induction false} BroadcastIsWellFormed(events: seq<Event>, from: nat)
    requires !SessionHistory.Scan(events).place.Broken? && from <= |events|
    ensures Subscription.WellFormedSource(Subscription.Yield(events[from..]))
  {
    forall k | 0 <= k < |events| ensures !events[k].payload.StepSnapshot? && events[k].seqNo == k + 1 {
      NoSummaries(events, k);
    }
  }

  /** Past the watermark a receiver that joined at or before it yields exactly the later events. */
  lemma {:induction false} NewerIsTheRest(events: seq<Event>, watermark: nat, part: seq<Event>, from: nat)
    requires forall k :: 0 <= k < |events| ==> events[k].seqNo == k + 1
    requires from <= watermark && from + |part| <= |events| && part == events[from..from + |part|]
    ensures Subscription.Newer(watermark, Subscription.Yield(part))
         == if from + |part| <= watermark then [] else events[watermark..from + |part|]
    decreases |part|
  {
    if part != [] {
      var n := |part| - 1;
      NewerIsTheRest(events, watermark, part[..n], from);
      var source, last := Subscription.Yield(part), events[from + n];
      assert source[..n] == Subscription.Yield(part[..n]) && source[n] == Subscription.Next(last);
      var front := Subscription.Newer(watermark, source[..n]);
      if watermark < last.seqNo {
        assert Subscription.Newer(watermark, source) == front + [last];
        assert events[watermark..from + n + 1] == events[watermark..from + n] + [last];
      } else {
        assert Subscription.Newer(watermark, source) == front;
      }
    }
  }

  /**
   For any run before the subscription, any run after it, any receiver that joined no later than the
   snapshot and any schedule of queue states: a client whose subscription is alive has the actor's
   transcript, and the actor's step, unless a summary is owed, exactly when no record of a finished
   step was lost since the last streamed text.
   */
  lemma {:induction false} SubscriberRebuildsTheSession(
    life: Life, history: seq<Payload>, before: seq<Message>, after: seq<Message>,
    cursor: Option<nat>, from: nat, schedule: seq<Subscription.Moment>)
    requires life.deleteAfter.Some? ==> life.ephemeral
    requires var at := Run(Init(life, history), before);
             var now := Run(at, after);
             && Handled(at, after) && !now.stopped && from <= |at.events|
             && from + |schedule| == |now.events|
    ensures var at := Run(Init(life, history), before);
            var now := Run(at, after);
            var snapshot := Subscribe(at, cursor);
            var sub := Subscription.Pump(Subscription.Start(snapshot.seqNo, snapshot.step), Subscription.Yield(now.events[from..]), schedule);
            !sub.ended ==>
              var c := Watch(Join(snapshot, HeldUpTo(at.transcript, cursor)), sub.delivered);
              && c.transcript == now.transcript
              && (!sub.owed ==> (StepAgrees(c.step, now.active) <==> LagAfter(at, after) == 0))
  {
    var at := Run(Init(life, history), before);
    var now := Run(at, after);
    RunsKeepInv(life, history, before);
    var joined := Join(Subscribe(at, cursor), HeldUpTo(at.transcript, cursor));
    SnapshotAndStreamGiveTheState(at, cursor, after);
    DeliveredEqualsBroadcast(life, history, before, after, joined, from, schedule);
  }

  lemma {:induction false} NewerOfBroadcast(events: seq<Event>, watermark: nat, from: nat)
    requires !SessionHistory.Scan(events).place.Broken? && from <= watermark <= |events|
    ensures Subscription.Newer(watermark, Subscription.Yield(events[from..])) == events[watermark..]
  {
    forall k | 0 <= k < |events| ensures events[k].seqNo == k + 1 {
      NoSummaries(events, k);
    }
    NewerIsTheRest(events, watermark, events[from..], from);
    assert events[watermark..|events|] == events[watermark..];
  }

  /** Over a well-bracketed broadcast: a live subscription folds to what the later events fold to. */
  lemma {:induction false} DeliveredFolds(
    events: seq<Event>, watermark: nat, start: Client, from: nat, schedule: seq<Subscription.Moment>)
    requires !SessionHistory.Scan(events).place.Broken?
    requires from <= watermark <= |events| && from + |schedule| == |events|
    ensures var sub := Subscription.Pump(Subscription.Start(watermark, start.step), Subscription.Yield(events[from..]), schedule);
            var full := Watch(start, events[watermark..]);
            !sub.ended ==>
              && Watch(start, sub.delivered).transcript == full.transcript
              && Watch(start, sub.delivered).output == full.output
              && (!sub.owed ==> Watch(start, sub.delivered) == full)
  {
    BroadcastIsWellFormed(events, from);
    NewerOfBroadcast(events, watermark, from);
    Subscription.CoalescedStreamRebuildsTheState(start, watermark, Subscription.Yield(events[from..]), schedule);
  }

  /** What a live subscription delivers folds to the same client as the broadcast past the snapshot. */
  lemma {:induction false} DeliveredEqualsBroadcast(
    life: Life, history: seq<Payload>, before: seq<Message>, after: seq<Message>,
    start: Client, from: nat, schedule: seq<Subscription.Moment>)
    requires var at := Run(Init(life, history), before);
             var now := Run(at, after);
             && at.events <= now.events && from <= |at.events| && from + |schedule| == |now.events|
             && start.step == StepOf(at.active)
    ensures var at := Run(Init(life, history), before);
            var now := Run(at, after);
            var sub := Subscription.Pump(Subscription.Start(at.seqNo, start.step), Subscription.Yield(now.events[from..]), schedule);
            var full := Watch(start, now.events[|at.events|..]);
            !sub.ended ==>
              && Watch(start, sub.delivered).transcript == full.transcript
              && Watch(start, sub.delivered).output == full.output
              && (!sub.owed ==> Watch(start, sub.delivered) == full)
  {
    var at := Run(Init(life, history), before);
    SessionHistory.RunsAreBracketed(life, history, before);
    BracketedOn(at, after);
    LastNumber(at.events);
    DeliveredFolds(Run(at, after).events, |at.events|, start, from, schedule);
  }

  lemma LastNumber(events: seq<Event>)
    requires !SessionHistory.Scan(events).place.Broken?
    ensures SessionHistory.Scan(events).last == |events|
  {
    if events != [] {
      NoSummaries(events, |events| - 1);
    }
  }

  lemma {:induction false} BracketedOn(s: Session, ms: seq<Message>)
    requires SessionHistory.Bracketed(s)
    ensures SessionHistory.Bracketed(Run(s, ms))
    decreases |ms|
  {
    if ms != [] {
      BracketedOn(s, ms[..|ms| - 1]);
      SessionHistory.HandleKeepsBracketed(Run(s, ms[..|ms| - 1]), ms[|ms| - 1]);
    }
  }

  /**
   Terminal bytes end to end, for every run, watermark, cursor and schedule: what a client has of a
   terminal cached at the snapshot, from the snapshot and everything delivered since, is the terminal's
   byte stream from the view's `dropped` offset on, even while a summary of the streamed step is owed.
   */
  lemma {:induction false} SubscriberHasEveryTerminalByte(
    life: Life, history: seq<Payload>, before: seq<Message>, after: seq<Message>,
    cursor: Option<nat>, from: nat, schedule: seq<Subscription.Moment>, k: nat)
    requires life.deleteAfter.Some? ==> life.ephemeral
    requires Handled(Init(life, history), before) && FreshTerminals(Init(life, history), before)
    requires var at := Run(Init(life, history), before);
             && Handled(at, after) && k < |at.views|
             && (forall j :: 0 <= j < |after| ==> !Opens(after[j], at.views[k].id))
             && from <= |at.events| && from + |schedule| == |Run(at, after).events|
    ensures var at := Run(Init(life, history), before);
            var now := Run(at, after);
            var snapshot := Subscribe(at, cursor);
            var sub := Subscription.Pump(Subscription.Start(snapshot.seqNo, snapshot.step), Subscription.Yield(now.events[from..]), schedule);
            var view := snapshot.views[k];
            var whole := TerminalCache.Stream(Telemetries(before + after), view.id);
            var joined := Join(snapshot, HeldUpTo(at.transcript, cursor));
            && view.dropped <= |whole|
            && (!sub.ended ==> Watch(joined, sub.delivered).Bytes(view.id) == whole[view.dropped..])
  {
    var at := Run(Init(life, history), before);
    var joined := Join(Subscribe(at, cursor), HeldUpTo(at.transcript, cursor));
    RunsKeepInv(life, history, []);
    TerminalBytesAreContinuous(Init(life, history), before, after, cursor, k);
    DeliveredEqualsBroadcast(life, history, before, after, joined, from, schedule);
  }

  /** A client's own value, if it takes nothing from deltas, is the same from what is delivered as from the broadcast. */
  lemma {:induction false} DeliveredFollows<V(!new)>(
    rule: Rule<V>, v: V, life: Life, history: seq<Payload>, before: seq<Message>, after: seq<Message>,
    from: nat, schedule: seq<Subscription.Moment>)
    requires DurableRule(rule)
    requires var at := Run(Init(life, history), before);
             Handled(at, after) && from <= |at.events| && from + |schedule| == |Run(at, after).events|
    ensures var at := Run(Init(life, history), before);
            var now := Run(at, after);
            var sub := Subscription.Pump(Subscription.Start(at.seqNo, StepOf(at.active)), Subscription.Yield(now.events[from..]), schedule);
            && at.events <= now.events
            && (!sub.ended ==> Follow(rule, v, sub.delivered) == Follow(rule, v, now.events[|at.events|..]))
  {
    var at := Run(Init(life, history), before);
    var events := Run(at, after).events;
    var joined := Join(Subscribe(at, None), []);
    SessionHistory.RunsAreBracketed(life, history, before);
    BracketedOn(at, after);
    LastNumber(at.events);
    RunGrows(at, after);
    BroadcastIsWellFormed(events, from);
    NewerOfBroadcast(events, |at.events|, from);
    Subscription.DeliveryIsOrderedAndComplete(joined, |at.events|, Subscription.Yield(events[from..]), schedule);
    var sub := Subscription.Pump(Subscription.Start(|at.events|, joined.step), Subscription.Yield(events[from..]), schedule);
    FollowDurable(rule, v, sub.delivered);
    FollowDurable(rule, v, events[|at.events|..]);
  }

  lemma {:induction false} RunGrows(s: Session, ms: seq<Message>)
    requires Handled(s, ms)
    ensures s.events <= Run(s, ms).events
    decreases |ms|
  {
    if ms != [] {
      HandledFront(s, ms);
      RunGrows(s, ms[..|ms| - 1]);
      SessionEmissions.HandleSends(Run(s, ms[..|ms| - 1]), ms[|ms| - 1]);
    }
  }

  /**
   Tool calls and the waiting permission end to end, for every run, cursor and schedule: from the snapshot and
   what is delivered a client shows every call as the actor has it but those gone astray, and the pending request
   exactly when no cancel has taken one away untold.
   */
  lemma {:induction false} SubscriberSeesToolsAndPermission(
    life: Life, history: seq<Payload>, before: seq<Message>, after: seq<Message>,
    cursor: Option<nat>, from: nat, schedule: seq<Subscription.Moment>, id: string)
    requires life.deleteAfter.Some? ==> life.ephemeral
    requires Handled(Init(life, history), before)
    requires var at := Run(Init(life, history), before);
             && Handled(at, after) && !Run(at, after).stopped
             && from <= |at.events| && from + |schedule| == |Run(at, after).events|
    ensures var at := Run(Init(life, history), before);
            var now := Run(at, after);
            var snapshot := Subscribe(at, cursor);
            var sub := Subscription.Pump(Subscription.Start(snapshot.seqNo, snapshot.step), Subscription.Yield(now.events[from..]), schedule);
            !sub.ended ==>
              && (id !in Tools.Astray(at, after) ==>
                    Tools.AgreesOn(Follow(Tools.Shown, Tools.BoardOf(snapshot.tools), sub.delivered), now, id))
              && (Follow(PermissionView.Shown, snapshot.pending, sub.delivered) == now.gate.pending
                  <==> !PermissionView.Lags(at, after))
  {
    var at := Run(Init(life, history), before);
    var snapshot := Subscribe(at, cursor);
    RunsKeepInv(life, history, before);
    Tools.RunKeepsOwnTools(Init(life, history), before);
    PermissionView.ClientSeesThePending(at, after, cursor, true);
    DeliveredFollows(PermissionView.Shown, snapshot.pending, life, history, before, after, from, schedule);
    DeliveredFollows(Tools.Shown, Tools.BoardOf(snapshot.tools), life, history, before, after, from, schedule);
    if id !in Tools.Astray(at, after) {
      Tools.EntriesAgreeOffAstray(Tools.BoardOf(snapshot.tools), at, after, id);
    }
  }

  /** The transcript a client keeps, payload by payload. */
  function Kept(transcript: seq<Payload>, p: Payload): seq<Payload> {
    if IsRecorded(p) then transcript + [p] else transcript
  }

  lemma {:induction false} TranscriptFollows(c: Client, events: seq<Event>)
    ensures Watch(c, events).transcript == Follow(Kept, c.transcript, events)
  {
    if events != [] {
      TranscriptFollows(c, events[..|events| - 1]);
    }
  }

  lemma {:induction false} FollowGrows(transcript: seq<Payload>, a: seq<Event>, b: seq<Event>)
    requires a <= b
    ensures Follow(Kept, transcript, a) <= Follow(Kept, transcript, b)
    decreases |b|
  {
    if |a| < |b| {
      FollowGrows(transcript, a, b[..|b| - 1]);
    } else {
      assert a == b;
    }
  }

  /** Of two streams, one a beginning of the other but for deltas and summaries, the first gives less of the transcript. */
  lemma {:induction false} LessTranscript(c: Client, a: seq<Event>, b: seq<Event>)
    requires Durable(a) <= Durable(b)
    ensures Watch(c, a).transcript <= Watch(c, b).transcript
  {
    TranscriptFollows(c, a);
    TranscriptFollows(c, b);
    FollowDurable(Kept, c.transcript, a);
    FollowDurable(Kept, c.transcript, b);
    FollowGrows(c.transcript, Durable(a), Durable(b));
  }

  /**
   A subscriber whose receiver may lag, for every run, cursor, schedule and every way to miss stretches of the
   broadcast: what it is given, but for deltas and summaries, is a beginning of what was broadcast past its
   snapshot, so its transcript is a beginning of the actor's; and once something was missed, or the broadcast is
   closed, its stream has ended and holds nothing of what came after.
   */
  lemma {:induction false} LaggingSubscribersSeeNoGap(
    life: Life, history: seq<Payload>, before: seq<Message>, after: seq<Message>, cursor: Option<nat>, from: nat,
    source: seq<Subscription.Received>, schedule: seq<Subscription.Moment>)
    requires life.deleteAfter.Some? ==> life.ephemeral
    requires var at := Run(Init(life, history), before);
             && Handled(at, after) && from <= |at.events| && from <= |Run(at, after).events| && |source| == |schedule|
             && Subscription.MayLag(Run(at, after).events[from..], source)
    ensures var at := Run(Init(life, history), before);
            var now := Run(at, after);
            var snapshot := Subscribe(at, cursor);
            var start := Subscription.Start(snapshot.seqNo, snapshot.step);
            var sub := Subscription.Pump(start, source, schedule);
            var k := Subscription.Intact(source);
            && at.events <= now.events && Durable(sub.delivered) <= Durable(now.events[|at.events|..])
            && (!now.stopped ==>
                  Watch(Join(snapshot, HeldUpTo(at.transcript, cursor)), sub.delivered).transcript <= now.transcript)
            && (k < |source| ==>
                  sub.ended && sub.delivered == Subscription.Pump(start, source[..k], schedule[..k]).delivered)
  {
    var at := Run(Init(life, history), before);
    var events := Run(at, after).events;
    var snapshot := Subscribe(at, cursor);
    var joined := Join(snapshot, HeldUpTo(at.transcript, cursor));
    SessionHistory.RunsAreBracketed(life, history, before);
    BracketedOn(at, after);
    LastNumber(at.events);
    RunGrows(at, after);
    BroadcastIsWellFormed(events, from);
    NewerOfBroadcast(events, |at.events|, from);
    Subscription.LaggingLeavesNoGap(joined, |at.events|, events[from..], source, schedule);
    var start := Subscription.Start(snapshot.seqNo, snapshot.step);
    var sub := Subscription.Pump(start, source, schedule);
    LessTranscript(joined, sub.delivered, events[|at.events|..]);
    RunsKeepInv(life, history, before);
    if !Run(at, after).stopped {
      SnapshotAndStreamGiveTheState(at, cursor, after);
    }
    if Subscription.Intact(source) < |source| {
      Subscription.NothingAfterAGap(start, source, schedule, Subscription.Intact(source));
    }
  }
}
