/**
 The file repository (crates/dwo-agent-service/src/repository.rs): a map from session ids to directories
 and the set of archived ids, kept in step with the directory tree and rebuilt from it on a restart. It
 answers every sequence of operations and restarts as the in-memory repository does.
 */
module Repository {
  import opened Common
  import opened Store
  import Transcript
  import opened Disk
  import opened Scan

  // ---------------------------------------------------------------- what a restart finds

  lemma {:induction false} NothingUnderRootIsUnderArchive(tree: Tree, p: Path)
    requires Reach(tree, Root, p)
    ensures !Reach(tree, ARCHIVE, p)
    decreases p
  {
    if p != Root {
      NothingUnderRootIsUnderArchive(tree, p.parent);
    }
  }

  lemma DateDirsAreReached<E>(codec: Transcript.Codec<E>, d: State<E>, base: Path, p: Path)
    requires Consistent(codec, d) && IsBase(base) && p in d.tree && IsDateDir(p)
    requires p.name.YearName? ==> p.parent == base
    requires !p.name.YearName? ==> Reach(d.tree, base, p.parent)
    ensures Reach(d.tree, base, p)
  {
    assert p.parent in d.tree;
    if p.parent != base {
      assert Settled(d, p.parent);
    }
  }

  /** A scan from one base finds the directories of the sessions of that base, and nothing else. */
  lemma SessionsAreReached<E>(codec: Transcript.Codec<E>, d: State<E>, id: SessionId)
    requires Consistent(codec, d) && id in d.paths
    ensures Reach(d.tree, BaseOf(d, id), d.paths[id])
    ensures id in d.archived ==> !Reach(d.tree, Root, d.paths[id])
    ensures id !in d.archived ==> !Reach(d.tree, ARCHIVE, d.paths[id])
  {
    SessionPath(codec, d, id);
    var base, day := BaseOf(d, id), d.paths[id].parent;
    var month, year := day.parent, day.parent.parent;
    assert day in d.tree && month in d.tree && year in d.tree;
    DateDirsAreReached(codec, d, base, year);
    DateDirsAreReached(codec, d, base, month);
    DateDirsAreReached(codec, d, base, day);
    assert Settled(d, day);
    assert Reach(d.tree, base, d.paths[id]);
    if id in d.archived {
      assert !Reach(d.tree, Root, ARCHIVE);
      assert !Reach(d.tree, Root, year);
      assert !Reach(d.tree, Root, month);
      assert !Reach(d.tree, Root, day);
    } else {
      NothingUnderRootIsUnderArchive(d.tree, d.paths[id]);
    }
  }

  lemma FoundAreSessions<E>(codec: Transcript.Codec<E>, d: State<E>, base: Path, p: Path)
    requires Consistent(codec, d) && IsBase(base) && IsFound(d.tree, base, p)
    ensures IsSession(d, p) && d.tree[p].meta.value.id == p.name.id && BaseOf(d, p.name.id) == base
  {
    assert Settled(d, p);
    SessionPath(codec, d, p.name.id);
    SessionsAreReached(codec, d, p.name.id);
  }

  // ---------------------------------------------------------------- the repository

  /** The tree with the two base directories made. */
  function WithBases(tree: Tree): Tree {
    MkdirAll(MkdirAll(tree, Root), ARCHIVE)
  }

  /** Reading the metadata of the directories found under one base gives that part of the path map. */
  method IndexSessions<E>(codec: Transcript.Codec<E>, ghost was: State<E>, tree: Tree, base: Path, dirs: seq<Path>)
    returns (found: map<SessionId, Path>)
    requires Consistent(codec, was) && was.tree == tree && IsBase(base)
    requires forall p :: p in dirs <==> IsFound(tree, base, p)
    ensures found == map id | id in was.paths && BaseOf(was, id) == base :: was.paths[id]
  {
    found := map[];
    for i := 0 to |dirs|
      invariant forall id :: id in found ==> id in was.paths && BaseOf(was, id) == base
                                             && found[id] == was.paths[id]
      invariant forall k :: 0 <= k < i ==> dirs[k].Child? && dirs[k].name.IdName? && dirs[k].name.id in found
    {
      assert dirs[i] in dirs;
      FoundAreSessions(codec, was, base, dirs[i]);
      found := found[tree[dirs[i]].meta.value.id := dirs[i]];
    }
    forall id | id in was.paths && BaseOf(was, id) == base ensures id in found {
      SessionsAreReached(codec, was, id);
      assert SessionOk(codec, was, id);
      assert IsFound(tree, base, was.paths[id]);
      assert was.paths[id] in dirs;
    }
  }

  method AppendTo<E>(codec: Transcript.Codec<E>, log: Transcript.Bytes, event: E)
    returns (longer: Transcript.Bytes)
    ensures longer == Transcript.Appended(codec, log, event)
  {
    var file := new Transcript.File<E>(codec);
    file.bytes := log;
    file.Append(event);
    longer := file.bytes;
  }

  method LoadFrom<E>(codec: Transcript.Codec<E>, log: Transcript.Bytes)
    returns (events: Option<seq<E>>, left: Transcript.Bytes)
    ensures match Transcript.Load(codec, log)
            case Unreadable => events.None? && left == log
            case Loaded(read, file) => events == Some(read) && left == file
  {
    var file := new Transcript.File<E>(codec);
    file.bytes := log;
    events := file.LoadEvents();
    left := file.bytes;
  }

  predicate Readable(tree: Tree, p: Path) {
    p in tree && tree[p].meta.Some? && tree[p].context.Some?
  }

  /** Reading the sessions of one base, one directory after the other. */
  method ReadRecords(ghost records: map<SessionId, Record>, tree: Tree, paths: map<SessionId, Path>,
                     archived: set<SessionId>, inArchive: bool) returns (list: seq<Record>)
    requires records.Keys == paths.Keys
    requires forall id :: id in paths ==> Readable(tree, paths[id]) && records[id] == RecordOf(tree[paths[id]])
    requires forall id :: id in records ==> records[id].id == id
    ensures ByRecency(list, set id | id in records && (id in archived) == inArchive :: records[id])
  {
    list := [];
    var todo := paths.Keys;
    ghost var seen: set<Record> := {};
    while todo != {}
      invariant todo <= paths.Keys
      invariant seen == set id | id in paths.Keys - todo && (id in archived) == inArchive :: records[id]
      invariant ByRecency(list, seen)
      decreases todo
    {
      var id :| id in todo;
      todo := todo - {id};
      if (id in archived) == inArchive {
        var r := RecordOf(tree[paths[id]]);
        list := InsertByRecency(list, r, seen);
        seen := seen + {r};
      }
    }
    assert seen == set id | id in records && (id in archived) == inArchive :: records[id];
  }

  predicate Reads<E>(op: Op<E>) {
    op.Load? || op.List? || op.ListArchived? || op.IsArchived? || op.LoadTranscript?
  }

  /** A session is filed under the date that its first save finds. */
  ghost function Refiled<E>(dateOf: nat -> Option<Date>, filed: map<SessionId, Date>, op: Op<E>)
    : map<SessionId, Date>
  {
    match op
    case Save(r) =>
      var date := dateOf(r.createdAt);
      if r.id in filed then filed else filed[r.id := if date.Some? then date.value else Date(0, 0, 0)]
    case Delete(id) => filed - {id}
    case _ => filed
  }

  // What the three operations that move directories do to a consistent disk, in one place each.

  lemma SavingHolds<E>(codec: Transcript.Codec<E>, dateOf: nat -> Option<Date>, d: State<E>, r: Record)
    requires Consistent(codec, d)
    requires PlaceOf(dateOf, d, r).Some? && Fits(d, r, PlaceOf(dateOf, d, r).value)
    ensures var d1 := Saved(d, r, PlaceOf(dateOf, d, r).value);
            && Consistent(codec, d1) && View(codec, d1) == After(View(codec, d), Save(Forget(r)))
            && Filings(d1) == Refiled(dateOf, Filings(d), Op<E>.Save(r))
  {
    SavingStores(codec, d, r, PlaceOf(dateOf, d, r).value);
    SavingFiles(codec, dateOf, d, r, PlaceOf(dateOf, d, r).value);
  }

  lemma MovingHolds<E>(codec: Transcript.Codec<E>, d: State<E>, id: SessionId)
    requires Consistent(codec, d) && id in d.paths
    ensures var goal := Across(codec, d, id);
            && Movable(d, id, goal) && d.paths[id].Child?
            && Rooted(Moved(d, id, goal).tree) && d.paths[id].parent in Moved(d, id, goal).tree
            && var d2 := Relocated(d, id, goal);
               && Consistent(codec, d2) && Filings(d2) == Filings(d)
               && View(codec, d2) == After(View(codec, d), if id in d.archived then Unarchive(id) else Archive(id))
  {
    MovingStores(codec, d, id);
    MovedIsAlmost(codec, d, id);
    MovingFiles(codec, d, id);
  }

  lemma DeletingHolds<E>(codec: Transcript.Codec<E>, d: State<E>, id: SessionId)
    requires Consistent(codec, d) && id in d.paths
    ensures Removable(d.tree, d.paths[id])
    ensures var d2 := Pruned(Deleted(d, id), d.paths[id].parent);
            && Consistent(codec, d2) && Filings(d2) == Filings(d) - {id}
            && View(codec, d2) == After(View(codec, d), Delete(id))
  {
    DeletingStores(codec, d, id);
    DeletedIsAlmost(codec, d, id);
    DeletingFiles(d, id, d.paths[id].parent);
  }

  lemma NothingToDelete<E>(codec: Transcript.Codec<E>, d: State<E>, id: SessionId)
    requires Consistent(codec, d) && id !in d.paths
    ensures After(View(codec, d), Delete(id)) == View(codec, d) && Filings(d) - {id} == Filings(d)
  {
    assert After(View(codec, d), Delete(id)).records == View(codec, d).records;
  }

  class FsRepository<E(!new)> {
    const codec: Transcript.Codec<E>
    const dateOf: nat -> Option<Date>  // the calendar of the time zone the process runs in
    var tree: Tree
    var paths: map<SessionId, Path>
    var archived: set<SessionId>
    ghost var logs: map<SessionId, seq<E>>

    ghost function Now(): State<E>
      reads this
    {
      State(tree, paths, archived, logs)
    }

    ghost predicate Valid()
      reads this
    {
      Transcript.Lawful(codec) && Consistent(codec, Now())
    }

    /** The sessions on disk; working directories are not among what is kept. */
    ghost function Contents(): (st: Store<E>)
      reads this
      requires Valid()
      ensures Whole(st)
    {
      View(codec, Now())
    }

    /** The date each session's directory lies under. */
    ghost function Dates(): map<SessionId, Date>
      reads this
    {
      Filings(Now())
    }

    /** Saving this record finds a date for it, and the place where its session is already, if anywhere. */
    ghost predicate Accepts(r: Record)
      reads this
    {
      var place := PlaceOf(dateOf, Now(), r);
      place.Some? && Fits(Now(), r, place.value)
    }

    /**
     FsSessionRepository::new on a disk that a repository left behind, or on an empty one, in any time zone:
     path map and archived set are what they were.
     */
    constructor Open(codec: Transcript.Codec<E>, dateOf: nat -> Option<Date>, disk: Tree, ghost was: State<E>)
      requires Transcript.Lawful(codec)
      requires was.tree == WithBases(disk) && Consistent(codec, was)
      ensures Valid() && Now() == was
      ensures this.codec == codec && this.dateOf == dateOf
    {
      var onDisk := WithBases(disk);
      var active := ScanSessionDirs(onDisk, Root);
      var found := IndexSessions(codec, was, onDisk, Root, active);
      var kept := ScanSessionDirs(onDisk, ARCHIVE);
      var inArchive := IndexSessions(codec, was, onDisk, ARCHIVE, kept);
      assert found + inArchive == was.paths && inArchive.Keys == was.archived;
      this.codec := codec;
      this.dateOf := dateOf;
      tree := onDisk;
      paths := found + inArchive;
      archived := inArchive.Keys;
      logs := was.logs;
    }

    /** session.json and model_context.json are written, the transcript made if it is not there. */
    method SaveRecord(r: Record) returns (ok: bool)
      requires Valid()
      modifies this
      ensures ok == (r.id in old(archived) || dateOf(r.createdAt).Some?)
      ensures ok ==> old(PlaceOf(dateOf, Now(), r)).Some?
                     && Now() == Saved(old(Now()), r, old(PlaceOf(dateOf, Now(), r)).value)
      ensures !ok ==> Now() == old(Now())
      ensures old(Accepts(r)) ==> ok && Valid() && Contents() == After(old(Contents()), Save(Forget(r)))
                                  && Dates() == Refiled(dateOf, old(Dates()), Op<E>.Save(r))
    {
      var dir;
      if r.id in archived {
        dir := paths[r.id];
      } else {
        var date := dateOf(r.createdAt);
        if date.None? {
          return false;
        }
        dir := SessionDir(Root, date.value, r.id);
      }
      if Accepts(r) {
        SavingHolds(codec, dateOf, Now(), r);
      }
      WriteSession(dir, r);
      return true;
    }

    method WriteSession(dir: Path, r: Record)
      modifies this
      ensures Now() == Saved(old(Now()), r, dir)
    {
      ghost var made := MkdirAll(tree, dir);
      tree := MkdirAll(tree, dir);
      var files := tree[dir].(context := Some(r.context));
      tree := tree[dir := files];
      files := files.(meta := Some(MetaOf(r)));
      tree := tree[dir := files];
      if files.log.None? {
        files := files.(log := Some([]));
        tree := tree[dir := files];
      }
      assert tree == made[dir := files];
      paths := paths[r.id := dir];
      logs := if r.id in logs then logs else logs[r.id := []];
    }

    method ReadRecord(id: SessionId) returns (r: Record)
      requires Valid() && id in paths
      ensures r == Contents().records[id]
    {
      SessionPath(codec, Now(), id);
      r := RecordOf(tree[paths[id]]);
    }

    method LoadRecord(id: SessionId) returns (r: Option<Record>)
      requires Valid()
      ensures Found(r) == Answer(Contents(), Load(id))
    {
      if id !in paths {
        return None;
      }
      var record := ReadRecord(id);
      return Some(record);
    }

    /** list and list_archived */
    method Select(inArchive: bool) returns (list: seq<Record>)
      requires Valid()
      ensures ByRecency(list, Listing(Contents(), inArchive))
    {
      ghost var records := Contents().records;
      forall id | id in paths ensures Readable(tree, paths[id]) && records[id] == RecordOf(tree[paths[id]]) {
        assert records[id] == SessionRecord(codec, Now(), id);
      }
      list := ReadRecords(records, tree, paths, archived, inArchive);
    }

    /** remove_empty_date_directories */
    method RemoveEmptyDateDirectories(path: Path)
      requires Rooted(tree) && path.Child? && path.parent in tree
      modifies this`tree
      ensures tree == Prune(old(tree), path.parent)
    {
      var directory := path.parent;
      while !IsBase(directory)
        invariant Rooted(tree) && directory in tree
        invariant Prune(tree, directory) == Prune(old(tree), path.parent)
        decreases directory
      {
        if tree[directory] != NOTHING || HasChild(tree, directory) {
          break;
        }
        var current := directory;
        assert directory.parent in tree;
        TreeWithout(tree, current);
        directory := current.parent;
        tree := tree - {current};
      }
    }

    method MoveToArchive(id: SessionId) returns (done: bool)
      requires Valid()
      modifies this
      ensures Valid() && Contents() == After(old(Contents()), Archive(id))
      ensures Flag(done) == Answer(old(Contents()), Archive(id)) && Dates() == old(Dates())
    {
      if id in archived {
        assert After(Contents(), Archive(id)).archived == archived;
        return true;
      }
      if id !in paths {
        return false;
      }
      Relocate(id, Root, ARCHIVE);
      return true;
    }

    method MoveBack(id: SessionId) returns (done: bool)
      requires Valid()
      modifies this
      ensures Valid() && Contents() == After(old(Contents()), Unarchive(id))
      ensures Flag(done) == Answer(old(Contents()), Unarchive(id)) && Dates() == old(Dates())
    {
      if id !in archived {
        assert After(Contents(), Unarchive(id)).archived == archived;
        return id in paths;
      }
      Relocate(id, ARCHIVE, Root);
      return true;
    }

    /** What archive and unarchive have in common: the session's directory goes from one base to the other. */
    method Relocate(id: SessionId, from: Path, to: Path)
      requires Valid() && id in paths
      requires from == BaseOf(Now(), id) && to == if id in archived then Root else ARCHIVE
      modifies this
      ensures Valid() && Dates() == old(Dates())
      ensures Contents() == After(old(Contents()), if id in old(archived) then Unarchive(id) else Archive(id))
    {
      ghost var goal := Across(codec, Now(), id);
      MovingHolds(codec, Now(), id);
      ChangeBase(id, from, to, goal);
    }

    /** The directory is renamed, the books follow, and date directories left empty go. */
    method ChangeBase(id: SessionId, from: Path, to: Path, ghost goal: Path)
      requires Movable(Now(), id, goal) && paths[id].Child?
      requires Rebase(paths[id], from, to) == Some(goal) && to == if id in archived then Root else ARCHIVE
      requires Rooted(Moved(Now(), id, goal).tree) && paths[id].parent in Moved(Now(), id, goal).tree
      modifies this
      ensures Now() == Relocated(old(Now()), id, goal)
    {
      var sessionDir := paths[id];
      var target := Rebase(sessionDir, from, to).value;
      tree := MkdirAll(tree, target.parent);
      tree := Rename(tree, sessionDir, target);
      paths := paths[id := target];
      if to == ARCHIVE {
        archived := archived + {id};
      } else {
        archived := archived - {id};
      }
      RemoveEmptyDateDirectories(sessionDir);
    }

    /** The directory goes, the books follow, and date directories left empty go. */
    method DropSession(id: SessionId)
      requires id in paths && Removable(tree, paths[id])
      modifies this
      ensures Now() == Pruned(Deleted(old(Now()), id), old(paths[id].parent))
    {
      var sessionDir := paths[id];
      tree := RemoveDirAll(tree, sessionDir);
      paths := paths - {id};
      archived := archived - {id};
      logs := logs - {id};
      RemoveEmptyDateDirectories(sessionDir);
    }

    method Remove(id: SessionId) returns (existed: bool)
      requires Valid() || (id in paths && Removable(tree, paths[id]))
      modifies this
      ensures existed == (id in old(paths))
      ensures !existed ==> Now() == old(Now())
      ensures existed ==> old(paths)[id].Child? && Now() == Pruned(Deleted(old(Now()), id), old(paths)[id].parent)
      ensures old(Valid()) ==> Valid() && Contents() == After(old(Contents()), Delete(id))
                               && Flag(existed) == Answer(old(Contents()), Delete(id)) && Dates() == old(Dates()) - {id}
    {
      if id !in paths {
        NothingToDelete(codec, Now(), id);
        return false;
      }
      if Valid() {
        DeletingHolds(codec, Now(), id);
      }
      DropSession(id);
      return true;
    }

    method AppendEvent(id: SessionId, event: E) returns (ok: bool)
      requires Valid()
      modifies this
      ensures Valid() && Contents() == After(old(Contents()), Append(id, event))
      ensures (if ok then Done else NoSuchSession) == Answer(old(Contents()), Append(id, event))
      ensures paths == old(paths)
    {
      if id !in paths {
        return false;
      }
      AppendingStores(codec, Now(), id, event);
      var dir := paths[id];
      var log := AppendTo(codec, tree[dir].log.value, event);
      tree := tree[dir := tree[dir].(log := Some(log))];
      logs := logs[id := logs[id] + [event]];
      return true;
    }

    method ReadTranscript(id: SessionId) returns (events: Option<seq<E>>)
      requires Valid()
      modifies this
      ensures Now() == old(Now())
      ensures events.Some? && Reply.Transcript(events.value) == Answer(Contents(), LoadTranscript(id))
    {
      if id !in paths {
        return Some([]);
      }
      SessionPath(codec, Now(), id);
      var dir := paths[id];
      Transcript.LoadsWhatWasAppended(codec, logs[id]);
      var log;
      events, log := LoadFrom(codec, tree[dir].log.value);
      tree := tree[dir := tree[dir].(log := Some(log))];
    }

    /** An operation that only reads. */
    method ServeRead(op: Op<E>) returns (reply: Reply<E>)
      requires Valid() && Reads(op)
      modifies this
      ensures Now() == old(Now()) && reply == Answer(Contents(), op)
    {
      match op {
        case Load(id) => var r := LoadRecord(id); reply := Found(r);
        case List =>
          var list := Select(false);
          reply := Listed(set r | r in list);
        case ListArchived =>
          var list := Select(true);
          reply := Listed(set r | r in list);
        case IsArchived(id) => reply := Flag(id in archived);
        case LoadTranscript(id) =>
          var events := ReadTranscript(id);
          reply := Reply.Transcript(events.value);
      }
    }

    /** Any operation, with its answer. */
    method Serve(op: Op<E>) returns (reply: Reply<E>)
      requires Valid()
      requires op.Save? ==> Accepts(op.record)
      modifies this
      ensures Valid() && Contents() == After(old(Contents()), ForgetOp(op))
      ensures reply == Answer(old(Contents()), ForgetOp(op))
      ensures Dates() == Refiled(dateOf, old(Dates()), op)
    {
      if Reads(op) {
        reply := ServeRead(op);
        return;
      }
      match op {
        case Save(r) => var ok := SaveRecord(r); reply := Done;
        case Delete(id) => var b := Remove(id); reply := Flag(b);
        case Archive(id) => var b := MoveToArchive(id); reply := Flag(b);
        case Unarchive(id) => var b := MoveBack(id); reply := Flag(b);
        case Append(id, e) =>
          var ok := AppendEvent(id, e);
          reply := if ok then Done else NoSuchSession;
      }
    }
  }

  // ---------------------------------------------------------------- side by side

  /** A restart may find the process in another time zone, hence with another calendar. */
  datatype Step<!E> = Do(op: Op<E>) | Restart(dateOf: nat -> Option<Date>)

  /** What decides whether the two repositories agree: the calendar, the sessions, and the date each is filed under. */
  datatype Books<!E> = Books(dateOf: nat -> Option<Date>, store: Store<E>, filed: map<SessionId, Date>)

  ghost predicate InOrder<E>(b: Books<E>) {
    Whole(b.store) && b.filed.Keys == b.store.records.Keys
  }

  ghost function Opened<E>(dateOf: nat -> Option<Date>): Books<E> {
    Books(dateOf, Store(map[], map[], {}), map[])
  }

  ghost function Booked<E>(b: Books<E>, step: Step<E>): (b': Books<E>)
    requires InOrder(b)
    ensures InOrder(b')
  {
    match step
    case Restart(dateOf) => b.(dateOf := dateOf)
    case Do(op) => b.(store := After(b.store, op), filed := Refiled(b.dateOf, b.filed, op))
  }

  /** A record saved for a session that is not archived has a date: the one the session is filed under, if it is. */
  ghost predicate FairStep<E>(b: Books<E>, step: Step<E>) {
    step.Do? && step.op.Save? && step.op.record.id !in b.store.archived ==>
      var r := step.op.record;
      b.dateOf(r.createdAt).Some? && (r.id in b.filed ==> b.dateOf(r.createdAt) == Some(b.filed[r.id]))
  }

  ghost predicate Fair<E>(b: Books<E>, steps: seq<Step<E>>)
    requires InOrder(b)
    decreases |steps|
  {
    steps != [] ==> FairStep(b, steps[0]) && Fair(Booked(b, steps[0]), steps[1..])
  }

  ghost function AllBooked<E>(b: Books<E>, steps: seq<Step<E>>): (b': Books<E>)
    requires InOrder(b)
    ensures InOrder(b')
    decreases |steps|
  {
    if steps == [] then b else AllBooked(Booked(b, steps[0]), steps[1..])
  }

  ghost predicate Alike<E(!new)>(memory: MemoryRepository<E>, disk: FsRepository<E>, b: Books<E>)
    reads memory, disk
  {
    && InOrder(b) && disk.Valid() && disk.dateOf == b.dateOf && disk.Dates() == b.filed
    && memory.Contents() == b.store && disk.Contents() == ForgetStore(b.store)
  }

  /** A save that is not fair finds no date, or another than that of a session which is there and active. */
  lemma UnfairMeansRefiled<E(!new)>(memory: MemoryRepository<E>, disk: FsRepository<E>, b: Books<E>, r: Record)
    requires Alike(memory, disk, b) && !FairStep(b, Do(Save(r)))
    ensures r.id !in disk.archived
    ensures disk.dateOf(r.createdAt).Some? ==>
              r.id in disk.paths && disk.dateOf(r.createdAt).value != Filed(disk.paths[r.id])
  {
    assert disk.Contents().archived == b.store.archived;
  }

  lemma FairMeansAccepted<E(!new)>(memory: MemoryRepository<E>, disk: FsRepository<E>, b: Books<E>, r: Record)
    requires Alike(memory, disk, b) && FairStep(b, Do(Save(r)))
    ensures disk.Accepts(r)
  {
    if r.id in disk.paths {
      SessionPath(disk.codec, disk.Now(), r.id);
    }
  }

  /** One operation in both. */
  method ServeBoth<E(!new)>(memory: MemoryRepository<E>, disk: FsRepository<E>, ghost b: Books<E>, op: Op<E>)
    returns (inMemory: Reply<E>, onDisk: Reply<E>)
    requires memory as object != disk as object
    requires Alike(memory, disk, b) && FairStep(b, Do(op))
    modifies memory, disk
    ensures Alike(memory, disk, Booked(b, Do(op))) && onDisk == ForgetReply(inMemory)
  {
    if op.Save? {
      FairMeansAccepted(memory, disk, b, op.record);
    }
    ForgettingSimulates(b.store, op);
    inMemory := memory.Serve(op);
    onDisk := disk.Serve(op);
  }

  /** A restart of the repository on disk. */
  method Reopen<E(!new)>(ghost memory: MemoryRepository<E>, disk: FsRepository<E>, ghost b: Books<E>,
                         dateOf: nat -> Option<Date>) returns (reopened: FsRepository<E>)
    requires Alike(memory, disk, b)
    ensures fresh(reopened) && reopened.codec == disk.codec && Alike(memory, reopened, Booked(b, Restart(dateOf)))
  {
    reopened := new FsRepository<E>.Open(disk.codec, dateOf, disk.tree, disk.Now());
  }

  /** The same answers, but for working directories. */
  ghost predicate Agree<E>(inMemory: seq<Reply<E>>, onDisk: seq<Reply<E>>) {
    |inMemory| == |onDisk| && forall k :: 0 <= k < |onDisk| ==> onDisk[k] == ForgetReply(inMemory[k])
  }

  lemma AgreeMore<E>(a: seq<Reply<E>>, b: seq<Reply<E>>, x: seq<Reply<E>>, y: seq<Reply<E>>)
    requires Agree(a, b) && Agree(x, y)
    ensures Agree(a + x, b + y)
  {
  }

  /** One step: an operation with an answer from each, or a restart. */
  method StepBoth<E(!new)>(memory: MemoryRepository<E>, disk: FsRepository<E>, ghost b: Books<E>, step: Step<E>)
    returns (next: FsRepository<E>, inMemory: seq<Reply<E>>, onDisk: seq<Reply<E>>)
    requires memory as object != disk as object
    requires Alike(memory, disk, b) && FairStep(b, step)
    modifies memory, disk
    ensures Alike(memory, next, Booked(b, step)) && next.codec == disk.codec && (next == disk || fresh(next))
    ensures Agree(inMemory, onDisk)
  {
    if step.Do? {
      var x, y := ServeBoth(memory, disk, b, step.op);
      next, inMemory, onDisk := disk, [x], [y];
    } else {
      next := Reopen(memory, disk, b, step.dateOf);
      inMemory, onDisk := [], [];
    }
  }

  method StartBoth<E(!new)>(codec: Transcript.Codec<E>, dateOf: nat -> Option<Date>)
    returns (memory: MemoryRepository<E>, disk: FsRepository<E>)
    requires Transcript.Lawful(codec)
    ensures fresh(memory) && fresh(disk) && disk.codec == codec && Alike(memory, disk, Opened(dateOf))
  {
    memory := new MemoryRepository<E>();
    ghost var empty: State<E> := State(WithBases(map[]), map[], {}, map[]);
    assert Consistent(codec, empty);
    disk := new FsRepository<E>.Open(codec, dateOf, map[], empty);
  }

  /** Both through any fair sequence of operations and restarts. */
  method PlayBoth<E(!new)>(memory: MemoryRepository<E>, disk: FsRepository<E>, ghost b: Books<E>, steps: seq<Step<E>>)
    returns (last: FsRepository<E>, inMemory: seq<Reply<E>>, onDisk: seq<Reply<E>>)
    requires memory as object != disk as object
    requires Alike(memory, disk, b) && Fair(b, steps)
    modifies memory, disk
    ensures Alike(memory, last, AllBooked(b, steps)) && last.codec == disk.codec && (last == disk || fresh(last))
    ensures Agree(inMemory, onDisk)
    decreases |steps|
  {
    last, inMemory, onDisk := disk, [], [];
    if steps != [] {
      last, inMemory, onDisk := StepBoth(memory, disk, b, steps[0]);
      var x, y;
      last, x, y := PlayBoth(memory, last, Booked(b, steps[0]), steps[1..]);
      AgreeMore(inMemory, onDisk, x, y);
      inMemory, onDisk := inMemory + x, onDisk + y;
    }
  }

  /**
   Any sequence of operations, with the process restarted in between wherever and in whatever time zone, as long
   as no session is saved under another date than its own: the repository on disk gives the answers of the one
   in memory, but for working directories.
   */
  method SideBySide<E(!new)>(codec: Transcript.Codec<E>, dateOf: nat -> Option<Date>, steps: seq<Step<E>>)
    returns (inMemory: seq<Reply<E>>, onDisk: seq<Reply<E>>)
    requires Transcript.Lawful(codec) && Fair(Opened(dateOf), steps)
    ensures Agree(inMemory, onDisk)
  {
    var memory, disk := StartBoth(codec, dateOf);
    disk, inMemory, onDisk := PlayBoth(memory, disk, Opened(dateOf), steps);
  }

  /** A session saved under another date and then deleted: the disk is as it was before. */
  method SaveThenDelete<E(!new)>(disk: FsRepository<E>, r: Record) returns (saved: bool)
    requires disk.Valid() && r.id !in disk.archived
    requires disk.dateOf(r.createdAt).Some? ==>
               r.id in disk.paths && disk.dateOf(r.createdAt).value != Filed(disk.paths[r.id])
    modifies disk
    ensures saved <==> disk.dateOf(r.createdAt).Some?
    ensures disk.tree == old(disk.tree)
  {
    ghost var before := disk.Now();
    saved := disk.SaveRecord(r);
    if saved {
      DeletingLeavesTheOldDirectory(disk.codec, before, r, disk.paths[r.id]);
      var existed := disk.Remove(r.id);
    }
  }

  /** What a save under another date comes to, once the session is deleted and the process restarted. */
  method SaveDeleteRestartLoad<E(!new)>(disk: FsRepository<E>, r: Record, zone: nat -> Option<Date>)
    returns (found: Option<Option<Record>>)
    requires disk.Valid() && r.id !in disk.archived
    requires disk.dateOf(r.createdAt).Some? ==>
               r.id in disk.paths && disk.dateOf(r.createdAt).value != Filed(disk.paths[r.id])
    modifies disk
    ensures found.Some? <==> disk.dateOf(r.createdAt).Some?
    ensures found.Some? ==> found.value.Some?
  {
    ghost var before := disk.Now();
    var saved := SaveThenDelete(disk, r);
    if !saved {
      return None;
    }
    var reopened := new FsRepository<E>.Open(disk.codec, zone, disk.tree, before);
    var record := reopened.LoadRecord(r.id);
    return Some(record);
  }

  method SaveUnfairly<E(!new)>(memory: MemoryRepository<E>, disk: FsRepository<E>, ghost b: Books<E>,
                               r: Record, zone: nat -> Option<Date>)
    returns (saved: bool, inMemory: Option<Record>, onDisk: Option<Record>)
    requires memory as object != disk as object && Alike(memory, disk, b) && !FairStep(b, Do(Save(r)))
    modifies memory, disk
    ensures saved ==> inMemory.None? && onDisk.Some?
  {
    UnfairMeansRefiled(memory, disk, b, r);
    var found := SaveDeleteRestartLoad(disk, r, zone);
    saved := found.Some?;
    memory.SaveRecord(r);
    var existed := memory.Remove(r.id);
    inMemory := if r.id in memory.records then Some(memory.records[r.id]) else None;
    onDisk := if saved then found.value else None;
  }

  /**
   And only as long as that: after any such sequence, a save that breaks the condition fails on disk alone, or
   else deleting the session and restarting brings it back on disk, and on disk alone.
   */
  method UnfairSaveShows<E(!new)>(codec: Transcript.Codec<E>, dateOf: nat -> Option<Date>, steps: seq<Step<E>>,
                                  r: Record, zone: nat -> Option<Date>)
    returns (saved: bool, inMemory: Option<Record>, onDisk: Option<Record>)
    requires Transcript.Lawful(codec) && Fair(Opened(dateOf), steps)
    requires !FairStep(AllBooked(Opened(dateOf), steps), Do(Save(r)))
    ensures saved ==> inMemory.None? && onDisk.Some?
  {
    var memory, disk := StartBoth(codec, dateOf);
    var last, answers, same := PlayBoth(memory, disk, Opened(dateOf), steps);
    saved, inMemory, onDisk := SaveUnfairly(memory, last, AllBooked(Opened(dateOf), steps), r, zone);
  }
}
