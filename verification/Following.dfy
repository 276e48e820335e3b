/**
 A client that keeps a value of its own, a list of calls or the request that waits for an answer, by
 taking up one broadcast payload after the other.
 */
module Following {
  import opened Common
  import opened Events
  import opened SessionActor
  import opened SessionRuns
  import opened SessionEmissions

  /** How a client's value changes with a payload. */
  type Rule<!V> = (V, Payload) -> V

  function TakeAll<V>(rule: Rule<V>, v: V, ps: seq<Payload>): V {
    if ps == [] then v else rule(TakeAll(rule, v, ps[..|ps| - 1]), ps[|ps| - 1])
  }

  function Follow<V>(rule: Rule<V>, v: V, events: seq<Event>): V {
    if events == [] then v else rule(Follow(rule, v, events[..|events| - 1]), events[|events| - 1].payload)
  }

  lemma TakeOne<V>(rule: Rule<V>, v: V, ps: seq<Payload>, p: Payload)
    ensures TakeAll(rule, v, ps + [p]) == rule(TakeAll(rule, v, ps), p)
  {
    assert (ps + [p])[..|ps|] == ps;
  }

  lemma TakeWhen<V>(rule: Rule<V>, v: V, sent: bool, p: Payload)
    ensures TakeAll(rule, v, When(sent, p)) == if sent then rule(v, p) else v
  {
    TakeOne(rule, v, [], p);
    assert [] + [p] == [p];
  }

  lemma {:induction false} TakeMore<V>(rule: Rule<V>, v: V, ps: seq<Payload>, qs: seq<Payload>)
    ensures TakeAll(rule, v, ps + qs) == TakeAll(rule, TakeAll(rule, v, ps), qs)
    decreases |qs|
  {
    if qs == [] {
      assert ps + qs == ps;
    } else {
      var front, q := qs[..|qs| - 1], qs[|qs| - 1];
      TakeMore(rule, v, ps, front);
      assert front + [q] == qs;
      Assoc(ps, front, [q]);
      TakeOne(rule, v, ps + front, q);
    }
  }

  lemma {:induction false} TakeNothing<V>(rule: Rule<V>, v: V, ps: seq<Payload>)
    requires forall p :: p in ps ==> rule(v, p) == v
    ensures TakeAll(rule, v, ps) == v
  {
    if ps != [] {
      assert ps[|ps| - 1] in ps;
      assert forall p :: p in ps[..|ps| - 1] ==> p in ps;
      TakeNothing(rule, v, ps[..|ps| - 1]);
    }
  }

  lemma {:induction false} FollowNumbered<V>(rule: Rule<V>, v: V, last: nat, ps: seq<Payload>)
    ensures Follow(rule, v, NumberFrom(last, ps)) == TakeAll(rule, v, ps)
  {
    if ps != [] {
      FollowNumbered(rule, v, last, ps[..|ps| - 1]);
      var all := NumberFrom(last, ps);
      assert all[..|all| - 1] == NumberFrom(last, ps[..|ps| - 1]);
    }
  }

  lemma {:induction false} FollowAppend<V>(rule: Rule<V>, v: V, a: seq<Event>, c: seq<Event>)
    ensures Follow(rule, v, a + c) == Follow(rule, Follow(rule, v, a), c)
    decreases |c|
  {
    if c == [] {
      assert a + c == a;
    } else {
      FollowAppend(rule, v, a, c[..|c| - 1]);
      assert (a + c)[..|a + c| - 1] == a + c[..|c| - 1];
    }
  }

  /** A rule that takes nothing from what a lossy subscription may drop or sum up. */
  ghost predicate DurableRule<V(!new)>(rule: Rule<V>) {
    forall v: V, p: Payload :: IsDelta(p) || p.StepSnapshot? ==> rule(v, p) == v
  }

  lemma {:induction false} FollowDurable<V(!new)>(rule: Rule<V>, v: V, events: seq<Event>)
    requires DurableRule(rule)
    ensures Follow(rule, v, Durable(events)) == Follow(rule, v, events)
  {
    if events != [] {
      var front, e := events[..|events| - 1], events[|events| - 1];
      FollowDurable(rule, v, front);
      assert front + [e] == events;
      DurableMore(front, e);
      if !IsDelta(e.payload) && !e.payload.StepSnapshot? {
        FollowAppend(rule, v, Durable(front), [e]);
        assert [e][..0] == [];
      }
    }
  }

  /** Following a run by one more message is taking up what the message emits. */
  lemma {:induction false} FollowNext<V>(rule: Rule<V>, v: V, s: Session, s1: Session, m: Message)
    requires s.events <= s1.events && !s1.stopped
    ensures var s2 := Handle(s1, m).0;
            && s.events <= s2.events
            && Follow(rule, v, s2.events[|s.events|..])
               == TakeAll(rule, Follow(rule, v, s1.events[|s.events|..]), Emitted(s1, m))
  {
    HandleSends(s1, m);
    FollowSent(rule, v, s1.events, |s.events|, s1.seqNo, Emitted(s1, m));
  }

  /** Following a stream from its n-th event on, by what is sent next. */
  lemma {:induction false} FollowSent<V>(rule: Rule<V>, v: V, events: seq<Event>, n: nat, last: nat, ps: seq<Payload>)
    requires n <= |events|
    ensures Follow(rule, v, (events + NumberFrom(last, ps))[n..]) == TakeAll(rule, Follow(rule, v, events[n..]), ps)
  {
    assert (events + NumberFrom(last, ps))[n..] == events[n..] + NumberFrom(last, ps);
    FollowAppend(rule, v, events[n..], NumberFrom(last, ps));
    FollowNumbered(rule, Follow(rule, v, events[n..]), last, ps);
  }
}
