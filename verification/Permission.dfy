/**
 The one permission request a session may have pending, and the decisions sent on its
 one-shot channels (crates/dwo-agent-service/src/permission.rs).
 */
module Permission {
  import opened Common
  import opened Events

  datatype Pending = Pending(turn: TurnId, request: RequestId)

  datatype Reason = Replaced | TurnWasCancelled | TurnWasFinished | SessionWasClosed | SessionExpired | TurnNotActive

  datatype Verdict = Responded(allowed: bool) | Rejected(reason: Reason)

  /** One send on the one-shot channel of a request. */
  datatype Decision = Decision(turn: TurnId, request: RequestId, verdict: Verdict)

  datatype Gate = Gate(pending: Option<Pending>, decisions: seq<Decision>) {

    function Reject(reason: Reason): Gate {
      if pending.None? then this
      else Gate(None, decisions + [Decision(pending.value.turn, pending.value.request, Rejected(reason))])
    }

    function Register(p: Pending): Gate {
      Reject(Replaced).(pending := Some(p))
    }

    predicate Answers(request: RequestId) {
      pending.Some? && pending.value.request == request
    }

    function Respond(request: RequestId, allowed: bool): Gate {
      if Answers(request)
      then Gate(None, decisions + [Decision(pending.value.turn, request, Responded(allowed))])
      else this
    }

    /** A request that never reached the gate is refused on its own channel. */
    function Refuse(p: Pending): Gate {
      this.(decisions := decisions + [Decision(p.turn, p.request, Rejected(TurnNotActive))])
    }

    /** The request was never seen here: neither pending nor decided. */
    predicate Unseen(request: RequestId) {
      !Answers(request) && forall k :: 0 <= k < |decisions| ==> decisions[k].request != request
    }

    /** Every request has at most one decision, and none while it is still pending. */
    ghost predicate DecidedOnce() {
      && (forall i, j :: 0 <= i < j < |decisions| ==> decisions[i].request != decisions[j].request)
      && (pending.Some? ==> forall k :: 0 <= k < |decisions| ==> decisions[k].request != pending.value.request)
    }
  }

  /**
   What a tool waiting for its confirmation gets: a refusal when its select saw the turn's
   cancellation first or the channel was dropped, otherwise the decision that was sent.
   */
  function Confirmation(decisions: seq<Decision>, request: RequestId, sawCancel: bool): bool {
    if sawCancel || decisions == [] then false
    else if decisions[0].request == request then decisions[0].verdict == Responded(true)
    else Confirmation(decisions[1..], request, false)
  }

  /** A tool is allowed exactly when an endpoint allowed that very request and no cancel came first. */
  lemma {:induction false} AllowedMeansAnswered(g: Gate, request: RequestId, sawCancel: bool)
    requires g.DecidedOnce()
    ensures Confirmation(g.decisions, request, sawCancel)
       <==> !sawCancel && exists d :: d in g.decisions && d.request == request && d.verdict == Responded(true)
    decreases |g.decisions|
  {
    var ds := g.decisions;
    if !sawCancel && ds != [] {
      if ds[0].request == request {
        assert ds[0] in ds;
      } else {
        AllowedMeansAnswered(Gate(g.pending, ds[1..]), request, sawCancel);
        assert forall d :: d in ds <==> d == ds[0] || d in ds[1..];
      }
    }
  }

  class PermissionState {
    var pending: Option<Pending>
    var decisions: seq<Decision>

    ghost function Gated(): Gate
      reads this
    {
      Gate(pending, decisions)
    }

    constructor ()
      ensures Gated() == Gate(None, [])
    {
      pending, decisions := None, [];
    }

    method Reject(reason: Reason)
      modifies this
      ensures Gated() == old(Gated()).Reject(reason)
    {
      if pending.Some? {
        var taken := pending.value;
        pending := None;
        decisions := decisions + [Decision(taken.turn, taken.request, Rejected(reason))];
      }
    }

    method Register(p: Pending)
      modifies this
      ensures Gated() == old(Gated()).Register(p)
    {
      Reject(Replaced);
      pending := Some(p);
    }

    /** Takes the pending request, and puts it back when the answer names another one. */
    method Respond(request: RequestId, allowed: bool) returns (resolved: Option<Pending>)
      modifies this
      ensures Gated() == old(Gated()).Respond(request, allowed)
      ensures resolved == if old(Gated()).Answers(request) then old(pending) else None
    {
      var taken := pending;
      pending := None;
      if taken.None? {
        return None;
      }
      if taken.value.request != request {
        pending := taken;
        return None;
      }
      decisions := decisions + [Decision(taken.value.turn, request, Responded(allowed))];
      return taken;
    }

    /** The refusal of a request for a turn that is not the active one. */
    method Refuse(p: Pending)
      modifies this
      ensures Gated() == old(Gated()).Refuse(p)
    {
      decisions := decisions + [Decision(p.turn, p.request, Rejected(TurnNotActive))];
    }
  }
}
