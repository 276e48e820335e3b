/**
 What a session repository answers, told by the history of what was asked of it
 (crates/dwo-agent-service/src/repository.rs).
 */
module StoreHistory {
  import opened Common
  import opened Store

  function Performed<E>(ops: seq<Op<E>>): (st: Store<E>)
    ensures Whole(st)
  {
    if ops == [] then Store(map[], map[], {}) else After(Performed(ops[..|ops| - 1]), ops[|ops| - 1])
  }

  /** The record last saved, if the session has not been deleted since. */
  function LastSaved<E>(ops: seq<Op<E>>, id: SessionId): Option<Record> {
    if ops == [] then None
    else
      var before := LastSaved(ops[..|ops| - 1], id);
      match ops[|ops| - 1]
      case Save(r) => if r.id == id then Some(r) else before
      case Delete(x) => if x == id then None else before
      case _ => before
  }

  /** What has been appended since the session was first saved, or saved again after it was deleted. */
  function Appended<E>(ops: seq<Op<E>>, id: SessionId): seq<E> {
    if ops == [] then []
    else
      var front := ops[..|ops| - 1];
      match ops[|ops| - 1]
      case Delete(x) => if x == id then [] else Appended(front, id)
      case Append(x, e) => if x == id && LastSaved(front, id).Some? then Appended(front, id) + [e] else Appended(front, id)
      case _ => Appended(front, id)
  }

  /** The session was archived while it was there, and neither taken back nor deleted since. */
  predicate Shelved<E>(ops: seq<Op<E>>, id: SessionId) {
    ops != []
    && var front := ops[..|ops| - 1];
       match ops[|ops| - 1]
       case Archive(x) => Shelved(front, id) || (x == id && LastSaved(front, id).Some?)
       case Unarchive(x) => x != id && Shelved(front, id)
       case Delete(x) => x != id && Shelved(front, id)
       case _ => Shelved(front, id)
  }

  /** The store holds of a session what its history says. */
  ghost predicate Tells<E>(st: Store<E>, ops: seq<Op<E>>, id: SessionId)
    requires Whole(st)
  {
    && (id in st.records <==> LastSaved(ops, id).Some?)
    && (id in st.records ==> st.records[id] == LastSaved(ops, id).value && st.logs[id] == Appended(ops, id))
    && (id !in st.records ==> Appended(ops, id) == [])
    && (id in st.archived <==> Shelved(ops, id))
  }

  lemma OneMoreOperation<E>(ops: seq<Op<E>>, op: Op<E>, id: SessionId)
    requires Tells(Performed(ops), ops, id)
    ensures Tells(Performed(ops + [op]), ops + [op], id)
  {
    assert (ops + [op])[..|ops|] == ops;
  }

  lemma {:induction false} StoreTellsTheHistory<E>(ops: seq<Op<E>>, id: SessionId)
    ensures Tells(Performed(ops), ops, id)
  {
    if ops != [] {
      var n := |ops| - 1;
      StoreTellsTheHistory(ops[..n], id);
      OneMoreOperation(ops[..n], ops[n], id);
      assert ops == ops[..n] + [ops[n]];
    }
  }

  /** Whatever was asked before: every answer is what the history of the sessions says. */
  lemma {:induction false} AnswersTellTheHistory<E>(ops: seq<Op<E>>, id: SessionId)
    ensures var st := Performed(ops);
            && Answer(st, Load(id)) == Found(LastSaved(ops, id))
            && Answer(st, LoadTranscript(id)) == Transcript(Appended(ops, id))
            && Answer(st, IsArchived(id)) == Flag(Shelved(ops, id))
            && Answer(st, Delete(id)) == Answer(st, Archive(id)) == Answer(st, Unarchive(id))
               == Flag(LastSaved(ops, id).Some?)
            && (forall e :: Answer(st, Append(id, e)) == if LastSaved(ops, id).Some? then Done else NoSuchSession)
  {
    StoreTellsTheHistory(ops, id);
  }

  /** And a list holds the sessions that were saved, each as saved last, archived or not as it is asked for. */
  lemma {:induction false} ListsTellTheHistory<E>(ops: seq<Op<E>>, r: Record)
    ensures var st := Performed(ops);
            && (r in Answer(st, List).records <==> LastSaved(ops, r.id) == Some(r) && !Shelved(ops, r.id))
            && (r in Answer(st, ListArchived).records <==> LastSaved(ops, r.id) == Some(r) && Shelved(ops, r.id))
  {
    StoreTellsTheHistory(ops, r.id);
  }
}
