/**
 What a session repository promises (the SessionRepository trait of
 crates/dwo-agent-service/src/repository.rs): one abstract store, what every operation does to it and
 answers, and the in-memory repository that keeps it in three maps.
 */
module Store {
  import opened Common

  type SessionId = nat

  /** A session record; the working directory is the only part that is not written to disk. */
  datatype Record = Record(id: SessionId, createdAt: nat, updatedAt: nat, cwd: string, details: string,
                           context: string)

  datatype Store<+E> = Store(records: map<SessionId, Record>, logs: map<SessionId, seq<E>>,
                             archived: set<SessionId>)

  predicate Whole<E>(st: Store<E>) {
    && st.logs.Keys == st.records.Keys && st.archived <= st.records.Keys
    && forall id :: id in st.records ==> st.records[id].id == id
  }

  datatype Op<+E> =
    | Save(record: Record)
    | Load(id: SessionId)
    | List
    | ListArchived
    | Delete(id: SessionId)
    | Archive(id: SessionId)
    | Unarchive(id: SessionId)
    | IsArchived(id: SessionId)
    | Append(id: SessionId, event: E)
    | LoadTranscript(id: SessionId)

  /** Lists are compared as sets here; their order is ByRecency below. */
  datatype Reply<+E> =
    | Done
    | NoSuchSession
    | Found(record: Option<Record>)
    | Listed(records: set<Record>)
    | Flag(value: bool)
    | Transcript(events: seq<E>)

  function Listing<E>(st: Store<E>, archived: bool): set<Record>
    requires Whole(st)
  {
    set id | id in st.records && (id in st.archived) == archived :: st.records[id]
  }

  function After<E>(st: Store<E>, op: Op<E>): Store<E>
    requires Whole(st)
  {
    match op
    case Save(r) =>
      st.(records := st.records[r.id := r],
          logs := if r.id in st.logs then st.logs else st.logs[r.id := []])
    case Delete(id) =>
      Store(st.records - {id}, st.logs - {id}, st.archived - {id})
    case Archive(id) =>
      if id in st.records then st.(archived := st.archived + {id}) else st
    case Unarchive(id) =>
      st.(archived := st.archived - {id})
    case Append(id, e) =>
      if id in st.records then st.(logs := st.logs[id := st.logs[id] + [e]]) else st
    case _ => st
  }

  function Answer<E>(st: Store<E>, op: Op<E>): Reply<E>
    requires Whole(st)
  {
    match op
    case Save(_) => Done
    case Load(id) => Found(if id in st.records then Some(st.records[id]) else None)
    case List => Listed(Listing(st, false))
    case ListArchived => Listed(Listing(st, true))
    case Delete(id) => Flag(id in st.records)
    case Archive(id) => Flag(id in st.records)
    case Unarchive(id) => Flag(id in st.records)
    case IsArchived(id) => Flag(id in st.archived)
    case Append(id, _) => if id in st.records then Done else NoSuchSession
    case LoadTranscript(id) => Transcript(if id in st.logs then st.logs[id] else [])
  }

  lemma StaysWhole<E>(st: Store<E>, op: Op<E>)
    requires Whole(st)
    ensures Whole(After(st, op))
  {
  }

  // ---------------------------------------------------------------- what disk keeps

  function Forget(r: Record): Record {
    r.(cwd := "")
  }

  function ForgetStore<E>(st: Store<E>): Store<E> {
    st.(records := map id | id in st.records :: Forget(st.records[id]))
  }

  function ForgetOp<E>(op: Op<E>): Op<E> {
    match op
    case Save(r) => Save(Forget(r))
    case _ => op
  }

  function ForgetReply<E>(reply: Reply<E>): Reply<E> {
    match reply
    case Found(Some(r)) => Found(Some(Forget(r)))
    case Listed(rs) => Listed(set r | r in rs :: Forget(r))
    case _ => reply
  }

  lemma ForgetListing<E>(st: Store<E>, archived: bool)
    requires Whole(st)
    ensures Whole(ForgetStore(st))
    ensures Listing(ForgetStore(st), archived) == set r | r in Listing(st, archived) :: Forget(r)
  {
    var a, b := Listing(ForgetStore(st), archived), set r | r in Listing(st, archived) :: Forget(r);
    forall r | r in a ensures r in b {
      var id :| id in ForgetStore(st).records && (id in st.archived) == archived
                && r == ForgetStore(st).records[id];
      assert st.records[id] in Listing(st, archived);
    }
    forall r | r in b ensures r in a {
      var full :| full in Listing(st, archived) && r == Forget(full);
      var id :| id in st.records && (id in st.archived) == archived && full == st.records[id];
      assert r == ForgetStore(st).records[id];
    }
  }

  /** A store that forgets working directories goes through the same states and gives the same answers. */
  lemma ForgettingSimulates<E>(st: Store<E>, op: Op<E>)
    requires Whole(st)
    ensures Whole(ForgetStore(st))
    ensures After(ForgetStore(st), ForgetOp(op)) == ForgetStore(After(st, op))
    ensures Answer(ForgetStore(st), ForgetOp(op)) == ForgetReply(Answer(st, op))
  {
    ForgetListing(st, true);
    ForgetListing(st, false);
    assert After(ForgetStore(st), ForgetOp(op)).records == ForgetStore(After(st, op)).records;
  }

  // ---------------------------------------------------------------- lists

  ghost predicate Descending(list: seq<Record>) {
    forall i, j :: 0 <= i < j < |list| ==> list[i].updatedAt >= list[j].updatedAt
  }

  /** A list of these records, each once, most recently updated first. */
  ghost predicate ByRecency(list: seq<Record>, records: set<Record>) {
    Descending(list) && |list| == |records| && forall r :: r in list <==> r in records
  }

  lemma InsertDescending(list: seq<Record>, r: Record, i: nat)
    requires Descending(list) && i <= |list|
    requires forall k :: 0 <= k < i ==> list[k].updatedAt >= r.updatedAt
    requires i < |list| ==> list[i].updatedAt < r.updatedAt
    ensures Descending(list[..i] + [r] + list[i..])
  {
    var all := list[..i] + [r] + list[i..];
    forall a, b | 0 <= a < b < |all| ensures all[a].updatedAt >= all[b].updatedAt {
      assert all[a] == if a < i then list[a] else if a == i then r else list[a - 1];
      assert all[b] == if b < i then list[b] else if b == i then r else list[b - 1];
    }
  }

  method InsertByRecency(list: seq<Record>, r: Record, ghost records: set<Record>) returns (all: seq<Record>)
    requires ByRecency(list, records) && r !in records
    ensures ByRecency(all, records + {r})
  {
    var i := 0;
    while i < |list| && list[i].updatedAt >= r.updatedAt
      invariant 0 <= i <= |list| && forall k :: 0 <= k < i ==> list[k].updatedAt >= r.updatedAt
    {
      i := i + 1;
    }
    InsertDescending(list, r, i);
    all := list[..i] + [r] + list[i..];
    assert forall x :: x in list <==> x in list[..i] || x in list[i..];
  }

  // ---------------------------------------------------------------- the in-memory repository

  class MemoryRepository<E> {
    var records: map<SessionId, Record>
    var transcripts: map<SessionId, seq<E>>
    var archived: set<SessionId>

    ghost function Contents(): Store<E>
      reads this
    {
      Store(records, transcripts, archived)
    }

    constructor ()
      ensures Contents() == Store(map[], map[], {})
    {
      records := map[];
      transcripts := map[];
      archived := {};
    }

    method SaveRecord(record: Record)
      requires Whole(Contents())
      modifies this
      ensures Contents() == After(old(Contents()), Save(record))
    {
      records := records[record.id := record];
      if record.id !in transcripts {
        transcripts := transcripts[record.id := []];
      }
    }

    method Remove(id: SessionId) returns (existed: bool)
      requires Whole(Contents())
      modifies this
      ensures Contents() == After(old(Contents()), Delete(id))
      ensures Flag(existed) == Answer(old(Contents()), Delete(id))
    {
      transcripts := transcripts - {id};
      archived := archived - {id};
      existed := id in records;
      records := records - {id};
    }

    method MoveToArchive(id: SessionId) returns (done: bool)
      requires Whole(Contents())
      modifies this
      ensures Contents() == After(old(Contents()), Archive(id))
      ensures Flag(done) == Answer(old(Contents()), Archive(id))
    {
      if id !in records {
        return false;
      }
      archived := archived + {id};
      return true;
    }

    method MoveBack(id: SessionId) returns (done: bool)
      requires Whole(Contents())
      modifies this
      ensures Contents() == After(old(Contents()), Unarchive(id))
      ensures Flag(done) == Answer(old(Contents()), Unarchive(id))
    {
      if id in archived {
        archived := archived - {id};
        return true;
      }
      return id in records;
    }

    method AppendEvent(id: SessionId, event: E) returns (ok: bool)
      requires Whole(Contents())
      modifies this
      ensures Contents() == After(old(Contents()), Append(id, event))
      ensures (if ok then Done else NoSuchSession) == Answer(old(Contents()), Append(id, event))
    {
      if id !in records {
        return false;
      }
      transcripts := transcripts[id := (if id in transcripts then transcripts[id] else []) + [event]];
      return true;
    }

    /** list and list_archived */
    method Select(inArchive: bool) returns (list: seq<Record>)
      requires Whole(Contents())
      ensures ByRecency(list, Listing(Contents(), inArchive))
    {
      list := [];
      var todo := records.Keys;
      ghost var seen: set<Record> := {};
      while todo != {}
        invariant todo <= records.Keys
        invariant seen == set id | id in records.Keys - todo && (id in archived) == inArchive :: records[id]
        invariant ByRecency(list, seen)
        decreases todo
      {
        var id :| id in todo;
        todo := todo - {id};
        if (id in archived) == inArchive {
          list := InsertByRecency(list, records[id], seen);
          seen := seen + {records[id]};
        }
      }
      assert seen == Listing(Contents(), inArchive);
    }

    /** Any operation, with its answer. */
    method Serve(op: Op<E>) returns (reply: Reply<E>)
      requires Whole(Contents())
      modifies this
      ensures Contents() == After(old(Contents()), op) && Whole(Contents())
      ensures reply == Answer(old(Contents()), op)
    {
      StaysWhole(Contents(), op);
      match op
      case Save(r) => SaveRecord(r); reply := Done;
      case Load(id) => reply := Found(if id in records then Some(records[id]) else None);
      case List =>
        var list := Select(false);
        reply := Listed(set r | r in list);
      case ListArchived =>
        var list := Select(true);
        reply := Listed(set r | r in list);
      case Delete(id) => var b := Remove(id); reply := Flag(b);
      case Archive(id) => var b := MoveToArchive(id); reply := Flag(b);
      case Unarchive(id) => var b := MoveBack(id); reply := Flag(b);
      case IsArchived(id) => reply := Flag(id in archived);
      case Append(id, e) =>
        var ok := AppendEvent(id, e);
        reply := if ok then Done else NoSuchSession;
      case LoadTranscript(id) => reply := Transcript(if id in transcripts then transcripts[id] else []);
    }
  }
}
