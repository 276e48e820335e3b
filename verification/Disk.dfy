/**
 The directory tree of the file repository (crates/dwo-agent-service/src/repository.rs): sessions live in
 <root>/<year>/<month>/<day>/<id> or, when archived, in <root>/archive/<year>/<month>/<day>/<id>. Here are
 the file-system calls as functions on the tree, what makes tree and bookkeeping consistent, and the
 proof that every repository operation keeps them so and does to the sessions what the store prescribes.
 */
module Disk {
  import opened Common
  import opened Store
  import opened Transcript

  datatype Date = Date(year: int, month: nat, day: nat)

  datatype Name = ArchiveName | YearName(year: int) | MonthName(month: nat) | DayName(day: nat)
                | IdName(id: SessionId)

  datatype Path = Root | Child(parent: Path, name: Name)

  const ARCHIVE: Path := Child(Root, ArchiveName)

  /** session.json */
  datatype Meta = Meta(id: SessionId, createdAt: nat, updatedAt: nat, details: string)

  /** The files of one directory. */
  datatype Files = Files(meta: Option<Meta>, context: Option<string>, log: Option<Bytes>)

  const NOTHING: Files := Files(None, None, None)

  /** Every directory, with its files. */
  type Tree = map<Path, Files>

  function DayDir(base: Path, date: Date): Path {
    Child(Child(Child(base, YearName(date.year)), MonthName(date.month)), DayName(date.day))
  }

  function SessionDir(base: Path, date: Date, id: SessionId): Path {
    Child(DayDir(base, date), IdName(id))
  }

  predicate IsBase(p: Path) {
    p == Root || p == ARCHIVE
  }

  predicate IsDateDir(p: Path) {
    p.Child? && match p.name
      case YearName(_) => IsBase(p.parent)
      case MonthName(_) => p.parent.Child? && p.parent.name.YearName? && IsDateDir(p.parent)
      case DayName(_) => p.parent.Child? && p.parent.name.MonthName? && IsDateDir(p.parent)
      case _ => false
  }

  lemma DayDirIsDateDir(base: Path, date: Date)
    requires IsBase(base)
    ensures IsDateDir(DayDir(base, date))
  {
    var year := Child(base, YearName(date.year));
    assert IsDateDir(year);
    assert IsDateDir(Child(year, MonthName(date.month)));
  }

  // ---------------------------------------------------------------- file-system calls

  predicate HasChild(tree: Tree, p: Path) {
    exists q :: q in tree && q.Child? && q.parent == p
  }

  predicate Rooted(tree: Tree) {
    Root in tree && forall p {:trigger p.parent} :: p in tree && p.Child? ==> p.parent in tree
  }

  /** create_dir_all */
  function MkdirAll(tree: Tree, p: Path): Tree {
    if p in tree then tree
    else if p.Root? then tree[p := NOTHING]
    else MkdirAll(tree, p.parent)[p := NOTHING]
  }

  lemma {:induction false} MkdirAllMakes(tree: Tree, p: Path)
    requires Rooted(tree) && ARCHIVE in tree && (IsBase(p) || IsDateDir(p))
    ensures var made := MkdirAll(tree, p);
            && p in made && Rooted(made)
            && (forall q :: q in tree ==> q in made && made[q] == tree[q])
            && (forall q :: q in made && q !in tree ==>
                  made[q] == NOTHING && IsDateDir(q) && (q == p || HasChild(made, q)))
  {
    if p !in tree {
      MkdirAllMakes(tree, p.parent);
      var made := MkdirAll(tree, p);
      assert p in made && p.parent in made;
      forall q | q in made && q !in tree && q != p ensures HasChild(made, q) {
        if q == p.parent {
          assert p in made && p.Child? && p.parent == q;
        } else {
          var c :| c in MkdirAll(tree, p.parent) && c.Child? && c.parent == q;
          assert c in made;
        }
      }
    }
  }

  /** Whether q is p or below it. */
  predicate Within(q: Path, p: Path) {
    q == p || (q.Child? && Within(q.parent, p))
  }

  /** remove_dir_all */
  function RemoveDirAll(tree: Tree, p: Path): Tree {
    map q | q in tree && !Within(q, p) :: tree[q]
  }

  lemma {:induction false} NothingBelowALeaf(tree: Tree, p: Path, q: Path)
    requires Rooted(tree) && !HasChild(tree, p) && q in tree && Within(q, p)
    ensures q == p
  {
    if q != p {
      NothingBelowALeaf(tree, p, q.parent);
    }
  }

  lemma RemovingALeaf(tree: Tree, p: Path)
    requires Rooted(tree) && !HasChild(tree, p)
    ensures RemoveDirAll(tree, p) == tree - {p}
  {
    forall q | q in tree && Within(q, p) ensures q == p {
      NothingBelowALeaf(tree, p, q);
    }
  }

  /** rename, of a directory without subdirectories to a place where there is none. */
  function Rename(tree: Tree, from: Path, to: Path): Tree
    requires from in tree && !HasChild(tree, from) && to !in tree
    requires to.Child? && to.parent in tree
  {
    (tree - {from})[to := tree[from]]
  }

  /** strip_prefix, then join. */
  function Rebase(p: Path, from: Path, to: Path): Option<Path> {
    if p == from then Some(to)
    else if p.Root? then None
    else
      var q := Rebase(p.parent, from, to);
      if q.Some? then Some(Child(q.value, p.name)) else None
  }

  lemma RebaseSession(from: Path, to: Path, date: Date, id: SessionId)
    requires IsBase(from) && IsBase(to)
    ensures Rebase(SessionDir(from, date, id), from, to) == Some(SessionDir(to, date, id))
  {
    var year := Child(from, YearName(date.year));
    var month := Child(year, MonthName(date.month));
    var day := Child(month, DayName(date.day));
    assert Rebase(year, from, to) == Some(Child(to, YearName(date.year)));
    assert Rebase(month, from, to) == Some(Child(Child(to, YearName(date.year)), MonthName(date.month)));
    assert Rebase(day, from, to) == Some(DayDir(to, date));
  }

  // ---------------------------------------------------------------- consistency

  /** The repository object and its disk. */
  datatype State<E> = State(tree: Tree, paths: map<SessionId, Path>, archived: set<SessionId>,
                            logs: map<SessionId, seq<E>>)

  function BaseOf<E>(d: State<E>, id: SessionId): Path {
    if id in d.archived then ARCHIVE else Root
  }

  /** The date that a session's directory lies under. */
  function Filed(p: Path): Date {
    match p
    case Child(Child(Child(Child(_, YearName(year)), MonthName(month)), DayName(day)), _) => Date(year, month, day)
    case _ => Date(0, 0, 0)
  }

  /** The date of each session's directory. */
  function Filings<E>(d: State<E>): map<SessionId, Date> {
    map id | id in d.paths :: Filed(d.paths[id])
  }

  /** A session is archived exactly when its path is under the archive root, and its files are there. */
  predicate SessionOk<E>(codec: Codec<E>, d: State<E>, id: SessionId)
    requires id in d.paths && id in d.logs
  {
    && d.paths[id] == SessionDir(BaseOf(d, id), Filed(d.paths[id]), id)
    && d.paths[id] in d.tree
    && var files := d.tree[d.paths[id]];
       files.meta.Some? && files.meta.value.id == id && files.context.Some?
       && files.log == Some(Encoding(codec, d.logs[id]))
  }

  predicate IsSession<E>(d: State<E>, p: Path) {
    p.Child? && p.name.IdName? && p.name.id in d.paths && d.paths[p.name.id] == p
  }

  /** A directory is a session's, one of the two bases, or a date directory that is not empty. */
  predicate Settled<E>(d: State<E>, p: Path)
    requires p in d.tree
  {
    IsSession(d, p)
    || (d.tree[p] == NOTHING && (IsBase(p) || (IsDateDir(p) && HasChild(d.tree, p))))
  }

  /** Consistent, but for one date directory that may be empty. */
  predicate Almost<E>(codec: Codec<E>, d: State<E>, at: Path) {
    && Rooted(d.tree) && ARCHIVE in d.tree
    && d.archived <= d.paths.Keys && d.logs.Keys == d.paths.Keys
    && (forall id {:trigger SessionOk(codec, d, id)} :: id in d.paths ==> SessionOk(codec, d, id))
    && (forall p {:trigger Settled(d, p)} ::
          p in d.tree ==> Settled(d, p) || (p == at && IsDateDir(p) && d.tree[p] == NOTHING))
  }

  predicate Consistent<E>(codec: Codec<E>, d: State<E>) {
    Almost(codec, d, Root)
  }

  function RecordOf(files: Files): Record
    requires files.meta.Some? && files.context.Some?
  {
    var meta := files.meta.value;
    Record(meta.id, meta.createdAt, meta.updatedAt, "", meta.details, files.context.value)
  }

  function SessionRecord<E>(codec: Codec<E>, d: State<E>, id: SessionId): (r: Record)
    requires Consistent(codec, d) && id in d.paths
    ensures d.paths[id] in d.tree
    ensures var files := d.tree[d.paths[id]];
            files.meta.Some? && files.context.Some? && r == RecordOf(files) && r.id == id
  {
    assert SessionOk(codec, d, id);
    RecordOf(d.tree[d.paths[id]])
  }

  /** The store that the disk holds. */
  function View<E>(codec: Codec<E>, d: State<E>): (st: Store<E>)
    requires Consistent(codec, d)
    ensures Whole(st)
  {
    Store(map id | id in d.paths :: SessionRecord(codec, d, id), d.logs, d.archived)
  }

  lemma ViewIs<E>(codec: Codec<E>, d: State<E>, st: Store<E>)
    requires Consistent(codec, d) && st.records.Keys == d.paths.Keys
    requires st.logs == d.logs && st.archived == d.archived
    requires forall id :: id in d.paths ==> SessionRecord(codec, d, id) == st.records[id]
    ensures View(codec, d) == st
  {
    assert View(codec, d).records == st.records;
  }

  /** A directory named after a session is that session's. */
  lemma IdDirsAreSessions<E>(codec: Codec<E>, d: State<E>, p: Path)
    requires Consistent(codec, d) && p.Child? && p.name.IdName?
    ensures p in d.tree ==> IsSession(d, p)
  {
    if p in d.tree {
      assert Settled(d, p);
    }
  }

  lemma SessionPath<E>(codec: Codec<E>, d: State<E>, id: SessionId)
    requires Consistent(codec, d) && id in d.paths
    ensures SessionOk(codec, d, id) && IsSession(d, d.paths[id])
    ensures d.paths[id].parent.Child? && d.paths[id].parent.name.DayName? && IsDateDir(d.paths[id].parent)
  {
    assert SessionOk(codec, d, id);
    DayDirIsDateDir(BaseOf(d, id), Filed(d.paths[id]));
  }

  lemma ParentsAreNoSessions<E>(codec: Codec<E>, d: State<E>, q: Path)
    requires Consistent(codec, d) && q in d.tree && q.Child? && q.parent.Child?
    ensures !q.parent.name.IdName?
  {
    assert Settled(d, q);
    if IsSession(d, q) {
      SessionPath(codec, d, q.name.id);
    }
  }

  lemma SessionsAreLeaves<E>(codec: Codec<E>, d: State<E>, id: SessionId)
    requires Consistent(codec, d) && id in d.paths
    ensures !HasChild(d.tree, d.paths[id])
  {
    SessionPath(codec, d, id);
    forall q | q in d.tree && q.Child? ensures q.parent != d.paths[id] {
      if q.parent.Child? {
        ParentsAreNoSessions(codec, d, q);
      }
    }
  }

  // ---------------------------------------------------------------- pruning empty date directories

  /** remove_empty_date_directories, from directory `at` upwards. */
  function Prune(tree: Tree, at: Path): (pruned: Tree)
    ensures forall p :: p in pruned ==> p in tree && pruned[p] == tree[p]
    decreases at
  {
    if IsBase(at) || at !in tree || tree[at] != NOTHING || HasChild(tree, at) then tree
    else Prune(tree - {at}, at.parent)
  }

  lemma SessionSurvives<E>(codec: Codec<E>, d: State<E>, d1: State<E>, id: SessionId)
    requires id in d.paths && id in d.logs && SessionOk(codec, d, id)
    requires id in d1.paths && id in d1.logs && d1.logs[id] == d.logs[id] && d1.paths[id] == d.paths[id]
    requires BaseOf(d1, id) == BaseOf(d, id)
    requires d.paths[id] in d1.tree && d1.tree[d.paths[id]] == d.tree[d.paths[id]]
    ensures SessionOk(codec, d1, id)
  {
  }

  lemma TreeWithout(tree: Tree, leaf: Path)
    requires Rooted(tree) && leaf.Child? && !HasChild(tree, leaf)
    ensures Rooted(tree - {leaf})
  {
    forall p | p in tree && p.Child? ensures p.parent != leaf {
    }
  }

  lemma {:induction false} EmptyDirGone<E>(codec: Codec<E>, d: State<E>, at: Path)
    requires Almost(codec, d, at) && at in d.tree && IsDateDir(at) && !HasChild(d.tree, at)
    ensures d.tree[at] == NOTHING
    ensures Almost(codec, d.(tree := d.tree - {at}), at.parent)
  {
    assert !Settled(d, at);
    var d1 := d.(tree := d.tree - {at});
    TreeWithout(d.tree, at);
    forall p | p in d1.tree
      ensures Settled(d1, p) || (p == at.parent && IsDateDir(p) && d1.tree[p] == NOTHING)
    {
      StaysSettled(d, at, p);
    }
    forall id | id in d1.paths ensures SessionOk(codec, d1, id) {
      assert SessionOk(codec, d, id) && d.paths[id] != at;
      SessionSurvives(codec, d, d1, id);
    }
  }

  /** Wherever a removed session leaves an empty date directory, pruning leaves no empty one at all. */
  lemma {:induction false} PruneRestores<E>(codec: Codec<E>, d: State<E>, at: Path)
    requires Almost(codec, d, at) && at in d.tree && (IsBase(at) || IsDateDir(at))
    ensures Consistent(codec, d.(tree := Prune(d.tree, at)))
    decreases at
  {
    if IsBase(at) || HasChild(d.tree, at) {
      forall p | p in d.tree ensures Settled(d, p) {
      }
    } else {
      EmptyDirGone(codec, d, at);
      PruneRestores(codec, d.(tree := d.tree - {at}), at.parent);
    }
  }

  lemma StaysSettled<E>(d: State<E>, gone: Path, p: Path)
    requires gone in d.tree && gone.Child? && p in d.tree && p != gone && Settled(d, p)
    ensures var d1 := d.(tree := d.tree - {gone});
            Settled(d1, p) || (p == gone.parent && IsDateDir(p) && d1.tree[p] == NOTHING)
  {
    var d1 := d.(tree := d.tree - {gone});
    if !IsSession(d, p) && !IsBase(p) && p != gone.parent {
      var c :| c in d.tree && c.Child? && c.parent == p;
      assert c in d1.tree;
    }
  }

  function Pruned<E>(d: State<E>, at: Path): State<E> {
    d.(tree := Prune(d.tree, at))
  }

  /** The disk without a session's directory and its bookkeeping. */
  function Deleted<E>(d: State<E>, id: SessionId): State<E>
    requires id in d.paths
  {
    State(RemoveDirAll(d.tree, d.paths[id]), d.paths - {id}, d.archived - {id}, d.logs - {id})
  }

  // ---------------------------------------------------------------- saving

  function MetaOf(r: Record): Meta {
    Meta(r.id, r.createdAt, r.updatedAt, r.details)
  }

  /** Where a record is written: where the session is if it is archived, else at its date of creation. */
  function PlaceOf<E>(dateOf: nat -> Option<Date>, d: State<E>, r: Record): Option<Path> {
    if r.id in d.archived then (if r.id in d.paths then Some(d.paths[r.id]) else None)
    else if dateOf(r.createdAt).Some? then Some(SessionDir(Root, dateOf(r.createdAt).value, r.id))
    else None
  }

  /** The place of a record is where its session is, if there is one already. */
  predicate Fits<E>(d: State<E>, r: Record, place: Path) {
    place == if r.id in d.paths then d.paths[r.id] else SessionDir(Root, Filed(place), r.id)
  }

  function Saved<E>(d: State<E>, r: Record, place: Path): State<E> {
    var made := MkdirAll(d.tree, place);
    var log := if place in made && made[place].log.Some? then made[place].log.value else [];
    State(made[place := Files(Some(MetaOf(r)), Some(r.context), Some(log))], d.paths[r.id := place],
          d.archived, if r.id in d.logs then d.logs else d.logs[r.id := []])
  }

  /** Saving makes the directories the session needs, and only those. */
  lemma PlaceIsMade<E>(codec: Codec<E>, d: State<E>, r: Record, place: Path)
    requires Consistent(codec, d) && Fits(d, r, place)
    ensures var made := MkdirAll(d.tree, place);
            && place.Child? && place.name == IdName(r.id) && place in made && Rooted(made)
            && (r.id in d.paths ==> place == d.paths[r.id] && made == d.tree)
            && (r.id !in d.paths ==> place !in d.tree && made[place] == NOTHING)
            && (forall q :: q in d.tree ==> q in made && made[q] == d.tree[q])
            && (forall q :: q in made && q !in d.tree && q != place ==>
                  made[q] == NOTHING && IsDateDir(q) && HasChild(made, q))
  {
    if r.id in d.paths {
      SessionPath(codec, d, r.id);
    } else {
      IdDirsAreSessions(codec, d, place);
      DayDirIsDateDir(Root, Filed(place));
      MkdirAllMakes(d.tree, place.parent);
      var made, full := MkdirAll(d.tree, place.parent), MkdirAll(d.tree, place);
      assert full == made[place := NOTHING];
      forall q | q in full && q !in d.tree && q != place ensures HasChild(full, q) {
        if q == place.parent {
          assert place in full && place.Child? && place.parent == q;
        } else {
          var c :| c in made && c.Child? && c.parent == q;
          assert c in full;
        }
      }
    }
  }

  /** Files written into a session's directory leave the other sessions as they are. */
  lemma SavedSession<E>(codec: Codec<E>, d: State<E>, r: Record, place: Path, id: SessionId)
    requires Consistent(codec, d) && Fits(d, r, place)
    requires id in d.paths || id == r.id
    ensures var d1 := Saved(d, r, place);
            id in d1.paths && id in d1.logs && SessionOk(codec, d1, id)
  {
    var d1 := Saved(d, r, place);
    PlaceIsMade(codec, d, r, place);
    if id in d.paths {
      assert SessionOk(codec, d, id);
    }
    if id != r.id {
      assert d.paths[id].name == IdName(id);
      SessionSurvives(codec, d, d1, id);
    }
  }

  lemma SavedDirs<E>(codec: Codec<E>, d: State<E>, r: Record, place: Path, p: Path)
    requires Consistent(codec, d) && Fits(d, r, place)
    requires p in Saved(d, r, place).tree
    ensures Settled(Saved(d, r, place), p)
  {
    var d1 := Saved(d, r, place);
    PlaceIsMade(codec, d, r, place);
    if p == place {
      assert IsSession(d1, p);
    } else if p in d.tree {
      assert Settled(d, p);
      if !IsSession(d, p) && !IsBase(p) {
        var c :| c in d.tree && c.Child? && c.parent == p;
        assert c in d1.tree;
      }
    } else {
      var made := MkdirAll(d.tree, place);
      var c :| c in made && c.Child? && c.parent == p;
      assert c in d1.tree;
    }
  }

  lemma SavingKeepsOrder<E>(codec: Codec<E>, d: State<E>, r: Record, place: Path)
    requires Consistent(codec, d) && Fits(d, r, place)
    ensures Consistent(codec, Saved(d, r, place))
  {
    var d1 := Saved(d, r, place);
    assert Rooted(d1.tree) && ARCHIVE in d1.tree by {
      PlaceIsMade(codec, d, r, place);
    }
    forall p | p in d1.tree ensures Settled(d1, p) {
      SavedDirs(codec, d, r, place, p);
    }
    forall id | id in d1.paths ensures SessionOk(codec, d1, id) {
      SavedSession(codec, d, r, place, id);
    }
  }

  lemma SavedRecord<E>(codec: Codec<E>, d: State<E>, r: Record, place: Path, id: SessionId)
    requires Consistent(codec, d) && Fits(d, r, place)
    requires Consistent(codec, Saved(d, r, place)) && id in Saved(d, r, place).paths
    ensures SessionRecord(codec, Saved(d, r, place), id)
            == if id == r.id then Forget(r) else SessionRecord(codec, d, id)
  {
    if id != r.id {
      PlaceIsMade(codec, d, r, place);
      assert SessionOk(codec, d, id);
    }
  }

  /** Saving a record does to the sessions on disk what the store prescribes. */
  lemma {:induction false} SavingStores<E>(codec: Codec<E>, d: State<E>, r: Record, place: Path)
    requires Consistent(codec, d) && Fits(d, r, place)
    ensures Consistent(codec, Saved(d, r, place))
    ensures View(codec, Saved(d, r, place)) == After(View(codec, d), Save(Forget(r)))
  {
    SavingKeepsOrder(codec, d, r, place);
    var d1 := Saved(d, r, place);
    var st := After(View(codec, d), Save(Forget(r)));
    forall id | id in d1.paths ensures SessionRecord(codec, d1, id) == st.records[id] {
      SavedRecord(codec, d, r, place, id);
    }
    ViewIs(codec, d1, st);
  }

  lemma SavingFiles<E>(codec: Codec<E>, dateOf: nat -> Option<Date>, d: State<E>, r: Record, place: Path)
    requires Consistent(codec, d) && PlaceOf(dateOf, d, r) == Some(place) && Fits(d, r, place)
    ensures Filings(Saved(d, r, place))
            == if r.id in d.paths then Filings(d) else Filings(d)[r.id := Filed(place)]
    ensures r.id !in d.paths ==> dateOf(r.createdAt) == Some(Filed(place))
  {
    var d1 := Saved(d, r, place);
    forall id | id in d.paths ensures d1.paths[id] == d.paths[id] {
    }
  }

  /**
   Why a session's date must stay what it was: when an active session is saved, its old directory is left
   behind, with its metadata, exactly when the record's date is another than the one it is filed under.
   */
  lemma SavingNeedsTheSameDate<E>(codec: Codec<E>, dateOf: nat -> Option<Date>, d: State<E>, r: Record)
    requires Consistent(codec, d) && r.id in d.paths && r.id !in d.archived && dateOf(r.createdAt).Some?
    ensures var d1 := Saved(d, r, PlaceOf(dateOf, d, r).value);
            (forall p :: p in d1.tree && p.Child? && p.name == IdName(r.id) ==> p == d1.paths[r.id])
            <==> dateOf(r.createdAt) == Some(Filed(d.paths[r.id]))
  {
    var place, was := PlaceOf(dateOf, d, r).value, d.paths[r.id];
    var d1 := Saved(d, r, place);
    SessionPath(codec, d, r.id);
    if place == was {
      forall p | p in d1.tree && p.Child? && p.name == IdName(r.id) ensures p == place {
        IdDirsAreSessions(codec, d, p);
      }
    } else {
      DayDirIsDateDir(Root, dateOf(r.createdAt).value);
      MkdirAllMakes(d.tree, place.parent);
      assert was in d1.tree && was.name == IdName(r.id) && d1.paths[r.id] == place;
    }
  }

  function Depth(p: Path): nat {
    if p.Root? then 0 else Depth(p.parent) + 1
  }

  /** Making a directory makes no deeper one. */
  lemma {:induction false} MkdirMakesNoDeeper(tree: Tree, at: Path, p: Path)
    requires Depth(p) > Depth(at) && p !in tree
    ensures p !in MkdirAll(tree, at)
    decreases at
  {
    if at !in tree && at.Child? {
      MkdirMakesNoDeeper(tree, at.parent, p);
    }
  }

  /** A directory that is still to be made has nothing below it once its parent is there. */
  lemma NewDirIsLeaf(tree: Tree, p: Path)
    requires Rooted(tree) && ARCHIVE in tree && p !in tree
    requires p.Child? && (IsBase(p.parent) || IsDateDir(p.parent))
    ensures var made := MkdirAll(tree, p.parent);
            p !in made && p.parent in made && Rooted(made) && !HasChild(made, p)
  {
    MkdirAllMakes(tree, p.parent);
    MkdirMakesNoDeeper(tree, p.parent, p);
  }

  /** Pruning takes away again the date directories that were made for a session. */
  lemma {:induction false} PruneUndoesMkdir<E>(codec: Codec<E>, d: State<E>, at: Path)
    requires Consistent(codec, d) && (IsBase(at) || IsDateDir(at))
    ensures Prune(MkdirAll(d.tree, at), at) == d.tree
    decreases at
  {
    if IsBase(at) {
      assert at in d.tree;
    } else if at in d.tree {
      assert Settled(d, at);
    } else {
      NewDirIsLeaf(d.tree, at);
      var made := MkdirAll(d.tree, at.parent);
      assert !HasChild(made[at := NOTHING], at) && made[at := NOTHING] - {at} == made;
      PruneUndoesMkdir(codec, d, at.parent);
    }
  }

  predicate Removable(tree: Tree, p: Path) {
    p.Child? && Rooted(RemoveDirAll(tree, p)) && p.parent in RemoveDirAll(tree, p)
  }

  /**
   And what comes of it: a session that was saved under another date and is then deleted leaves the disk just
   as it was before that save, with the session on it.
   */
  lemma {:induction false} DeletingLeavesTheOldDirectory<E>(codec: Codec<E>, d: State<E>, r: Record, place: Path)
    requires Consistent(codec, d) && r.id in d.paths && r.id !in d.archived
    requires place == SessionDir(Root, Filed(place), r.id) && place != d.paths[r.id]
    ensures var d1 := Saved(d, r, place);
            && Removable(d1.tree, place)
            && Pruned(Deleted(d1, r.id), place.parent).tree == d.tree
  {
    var at, d1 := place.parent, Saved(d, r, place);
    DayDirIsDateDir(Root, Filed(place));
    IdDirsAreSessions(codec, d, place);
    NewDirIsLeaf(d.tree, place);
    var made := MkdirAll(d.tree, at);
    assert Rooted(d1.tree) && !HasChild(d1.tree, place);
    RemovingALeaf(d1.tree, place);
    assert d1.tree - {place} == made;
    PruneUndoesMkdir(codec, d, at);
  }

  // ---------------------------------------------------------------- archiving and unarchiving

  /** Where a session goes when it changes base: strip_prefix, then join. */
  function Across<E>(codec: Codec<E>, d: State<E>, id: SessionId): (target: Path)
    requires Consistent(codec, d) && id in d.paths
    ensures Rebase(d.paths[id], BaseOf(d, id), if id in d.archived then Root else ARCHIVE) == Some(target)
    ensures target.Child? && target.name == IdName(id) && IsDateDir(target.parent)
    ensures target == SessionDir(if id in d.archived then Root else ARCHIVE, Filed(d.paths[id]), id)
  {
    assert SessionOk(codec, d, id);
    var to := if id in d.archived then Root else ARCHIVE;
    RebaseSession(BaseOf(d, id), to, Filed(d.paths[id]), id);
    DayDirIsDateDir(to, Filed(d.paths[id]));
    SessionDir(to, Filed(d.paths[id]), id)
  }

  predicate Movable<E>(d: State<E>, id: SessionId, target: Path) {
    && id in d.paths && target.Child?
    && var made := MkdirAll(d.tree, target.parent);
       d.paths[id] in made && !HasChild(made, d.paths[id]) && target !in made && target.parent in made
  }

  function Moved<E>(d: State<E>, id: SessionId, target: Path): State<E>
    requires Movable(d, id, target)
  {
    State(Rename(MkdirAll(d.tree, target.parent), d.paths[id], target), d.paths[id := target],
          if id in d.archived then d.archived - {id} else d.archived + {id}, d.logs)
  }

  /** The move can be made: the directory moved is a leaf, the target's parent is there, the target is not. */
  lemma MoveIsPossible<E>(codec: Codec<E>, d: State<E>, id: SessionId)
    requires Consistent(codec, d) && id in d.paths
    ensures var target, from := Across(codec, d, id), d.paths[id];
            var made := MkdirAll(d.tree, target.parent);
            && Movable(d, id, target) && from in d.tree && from.Child? && from != target && Rooted(made)
            && (forall q :: q in d.tree ==> q in made && made[q] == d.tree[q])
            && (forall q :: q in made && q !in d.tree ==>
                  made[q] == NOTHING && IsDateDir(q) && (q == target.parent || HasChild(made, q)))
  {
    var target, from := Across(codec, d, id), d.paths[id];
    SessionPath(codec, d, id);
    MkdirAllMakes(d.tree, target.parent);
    var made := MkdirAll(d.tree, target.parent);
    SessionsAreLeaves(codec, d, id);
    assert BaseOf(d, id) != (if id in d.archived then Root else ARCHIVE);
    assert from != target;
    IdDirsAreSessions(codec, d, target);
    forall q | q in made && q.Child? ensures q.parent != from {
      if q !in d.tree {
        assert IsDateDir(q);
      }
    }
  }

  lemma MovedDirs<E>(codec: Codec<E>, d: State<E>, id: SessionId, p: Path)
    requires Consistent(codec, d) && id in d.paths && Movable(d, id, Across(codec, d, id))
    requires p in Moved(d, id, Across(codec, d, id)).tree
    ensures var d1 := Moved(d, id, Across(codec, d, id));
            d.paths[id].Child? &&
            (Settled(d1, p) || (p == d.paths[id].parent && IsDateDir(p) && d1.tree[p] == NOTHING))
  {
    var target, from := Across(codec, d, id), d.paths[id];
    var made := MkdirAll(d.tree, target.parent);
    var d1 := Moved(d, id, target);
    MoveIsPossible(codec, d, id);
    if p == target {
      assert IsSession(d1, p);
    } else if p in d.tree {
      assert Settled(d, p);
      if !IsSession(d, p) && !IsBase(p) && p != from.parent {
        var c :| c in d.tree && c.Child? && c.parent == p;
        assert c in d1.tree;
      }
    } else if p == target.parent {
      assert target in d1.tree;
    } else {
      var c :| c in made && c.Child? && c.parent == p;
      assert c in d1.tree;
    }
  }

  lemma MovedSession<E>(codec: Codec<E>, d: State<E>, id: SessionId, x: SessionId)
    requires Consistent(codec, d) && id in d.paths && Movable(d, id, Across(codec, d, id)) && x in d.paths
    ensures SessionOk(codec, Moved(d, id, Across(codec, d, id)), x)
    ensures var d1 := Moved(d, id, Across(codec, d, id));
            d.paths[x] in d.tree && d1.tree[d1.paths[x]] == d.tree[d.paths[x]]
  {
    var target, from := Across(codec, d, id), d.paths[id];
    var d1 := Moved(d, id, target);
    MoveIsPossible(codec, d, id);
    assert SessionOk(codec, d, x) && SessionOk(codec, d, id);
    if x != id {
      assert d.paths[x].name == IdName(x) && from.name == IdName(id);
      SessionSurvives(codec, d, d1, x);
    }
  }

  lemma MovedIsAlmost<E>(codec: Codec<E>, d: State<E>, id: SessionId)
    requires Consistent(codec, d) && id in d.paths && Movable(d, id, Across(codec, d, id))
    ensures d.paths[id].Child? && Almost(codec, Moved(d, id, Across(codec, d, id)), d.paths[id].parent)
  {
    var target, from := Across(codec, d, id), d.paths[id];
    var made := MkdirAll(d.tree, target.parent);
    var d1 := Moved(d, id, target);
    MoveIsPossible(codec, d, id);
    TreeWithout(made, from);
    forall p | p in d1.tree
      ensures Settled(d1, p) || (p == from.parent && IsDateDir(p) && d1.tree[p] == NOTHING)
    {
      MovedDirs(codec, d, id, p);
    }
    forall x | x in d1.paths ensures SessionOk(codec, d1, x) {
      MovedSession(codec, d, id, x);
    }
  }

  /** Pruning leaves every session as it was. */
  lemma PruningKeepsRecords<E>(codec: Codec<E>, d: State<E>, at: Path, x: SessionId)
    requires Consistent(codec, Pruned(d, at)) && x in d.paths
    ensures d.paths[x] in Pruned(d, at).tree && d.paths[x] in d.tree
    ensures Pruned(d, at).tree[d.paths[x]] == d.tree[d.paths[x]]
  {
    assert SessionOk(codec, Pruned(d, at), x);
  }

  /** The disk after a session has changed base and empty date directories have been removed. */
  function Relocated<E>(d: State<E>, id: SessionId, target: Path): State<E>
    requires Movable(d, id, target) && d.paths[id].Child?
  {
    Pruned(Moved(d, id, target), d.paths[id].parent)
  }

  lemma MovingKeepsOrder<E>(codec: Codec<E>, d: State<E>, id: SessionId)
    requires Consistent(codec, d) && id in d.paths
    ensures var target := Across(codec, d, id);
            && Movable(d, id, target) && d.paths[id].Child?
            && d.paths[id].parent in Moved(d, id, target).tree
            && Consistent(codec, Relocated(d, id, target))
  {
    MoveIsPossible(codec, d, id);
    SessionPath(codec, d, id);
    MovedIsAlmost(codec, d, id);
    assert d.paths[id].parent in d.tree;
    PruneRestores(codec, Moved(d, id, Across(codec, d, id)), d.paths[id].parent);
  }

  lemma MovedRecord<E>(codec: Codec<E>, d: State<E>, id: SessionId, x: SessionId)
    requires Consistent(codec, d) && id in d.paths && x in d.paths
    requires Movable(d, id, Across(codec, d, id)) && d.paths[id].Child?
    requires Consistent(codec, Relocated(d, id, Across(codec, d, id)))
    ensures SessionRecord(codec, Relocated(d, id, Across(codec, d, id)), x) == SessionRecord(codec, d, x)
  {
    MovedSession(codec, d, id, x);
    PruningKeepsRecords(codec, Moved(d, id, Across(codec, d, id)), d.paths[id].parent, x);
  }

  lemma {:induction false} MovedView<E>(codec: Codec<E>, d: State<E>, id: SessionId)
    requires Consistent(codec, d) && id in d.paths
    requires Movable(d, id, Across(codec, d, id)) && d.paths[id].Child?
    requires Consistent(codec, Relocated(d, id, Across(codec, d, id)))
    ensures View(codec, Relocated(d, id, Across(codec, d, id)))
            == After(View(codec, d), if id in d.archived then Unarchive(id) else Archive(id))
  {
    var d2 := Relocated(d, id, Across(codec, d, id));
    SameRecords(codec, d, id);
    MovedInStore(View(codec, d), id);
    ViewIs(codec, d2, View(codec, d).(archived := d2.archived));
  }

  lemma MovedInStore<E>(st: Store<E>, id: SessionId)
    requires Whole(st) && id in st.records
    ensures After(st, if id in st.archived then Unarchive(id) else Archive(id))
            == st.(archived := if id in st.archived then st.archived - {id} else st.archived + {id})
  {
  }

  lemma {:induction false} SameRecords<E>(codec: Codec<E>, d: State<E>, id: SessionId)
    requires Consistent(codec, d) && id in d.paths
    requires Movable(d, id, Across(codec, d, id)) && d.paths[id].Child?
    requires Consistent(codec, Relocated(d, id, Across(codec, d, id)))
    ensures forall x :: x in d.paths ==>
              SessionRecord(codec, Relocated(d, id, Across(codec, d, id)), x) == SessionRecord(codec, d, x)
  {
    forall x | x in d.paths
      ensures SessionRecord(codec, Relocated(d, id, Across(codec, d, id)), x) == SessionRecord(codec, d, x)
    {
      MovedRecord(codec, d, id, x);
    }
  }

  /** Archiving and unarchiving do to the sessions on disk what the store prescribes. */
  lemma {:induction false} MovingStores<E>(codec: Codec<E>, d: State<E>, id: SessionId)
    requires Consistent(codec, d) && id in d.paths
    ensures var target := Across(codec, d, id);
            && Movable(d, id, target) && d.paths[id].Child?
            && d.paths[id].parent in Moved(d, id, target).tree
            && Consistent(codec, Relocated(d, id, target))
            && View(codec, Relocated(d, id, target))
               == After(View(codec, d), if id in d.archived then Unarchive(id) else Archive(id))
  {
    MovingKeepsOrder(codec, d, id);
    MovedView(codec, d, id);
  }

  lemma MovingFiles<E>(codec: Codec<E>, d: State<E>, id: SessionId)
    requires Consistent(codec, d) && id in d.paths
    requires Movable(d, id, Across(codec, d, id)) && d.paths[id].Child?
    ensures Filings(Relocated(d, id, Across(codec, d, id))) == Filings(d)
  {
  }

  // ---------------------------------------------------------------- deleting

  lemma DeletedDirs<E>(codec: Codec<E>, d: State<E>, id: SessionId, p: Path)
    requires Consistent(codec, d) && id in d.paths && p in Deleted(d, id).tree
    ensures var d1 := Deleted(d, id);
            d.paths[id].Child? &&
            (Settled(d1, p) || (p == d.paths[id].parent && IsDateDir(p) && d1.tree[p] == NOTHING))
  {
    var from := d.paths[id];
    SessionsAreLeaves(codec, d, id);
    RemovingALeaf(d.tree, from);
    SessionPath(codec, d, id);
    assert Settled(d, p);
    if !IsSession(d, p) && !IsBase(p) && p != from.parent {
      var c :| c in d.tree && c.Child? && c.parent == p;
      assert c in Deleted(d, id).tree;
    }
  }

  lemma DeletedSession<E>(codec: Codec<E>, d: State<E>, id: SessionId, x: SessionId)
    requires Consistent(codec, d) && id in d.paths && x in d.paths && x != id
    ensures SessionOk(codec, Deleted(d, id), x)
    ensures d.paths[x] in d.tree && Deleted(d, id).tree[d.paths[x]] == d.tree[d.paths[x]]
  {
    SessionsAreLeaves(codec, d, id);
    RemovingALeaf(d.tree, d.paths[id]);
    assert SessionOk(codec, d, x) && SessionOk(codec, d, id);
    assert d.paths[x].name == IdName(x) && d.paths[id].name == IdName(id);
    SessionSurvives(codec, d, Deleted(d, id), x);
  }

  lemma DeletedIsAlmost<E>(codec: Codec<E>, d: State<E>, id: SessionId)
    requires Consistent(codec, d) && id in d.paths
    ensures d.paths[id].Child? && d.paths[id].parent in Deleted(d, id).tree
    ensures Almost(codec, Deleted(d, id), d.paths[id].parent)
  {
    var d1 := Deleted(d, id);
    SessionPath(codec, d, id);
    SessionsAreLeaves(codec, d, id);
    RemovingALeaf(d.tree, d.paths[id]);
    TreeWithout(d.tree, d.paths[id]);
    assert d.paths[id].parent in d.tree;
    forall p | p in d1.tree
      ensures Settled(d1, p) || (p == d.paths[id].parent && IsDateDir(p) && d1.tree[p] == NOTHING)
    {
      DeletedDirs(codec, d, id, p);
    }
    forall x | x in d1.paths ensures SessionOk(codec, d1, x) {
      DeletedSession(codec, d, id, x);
    }
  }

  /** Deleting does to the sessions on disk what the store prescribes. */
  lemma {:induction false} DeletingStores<E>(codec: Codec<E>, d: State<E>, id: SessionId)
    requires Consistent(codec, d) && id in d.paths
    ensures d.paths[id].Child? && d.paths[id].parent in Deleted(d, id).tree
    ensures Consistent(codec, Pruned(Deleted(d, id), d.paths[id].parent))
    ensures View(codec, Pruned(Deleted(d, id), d.paths[id].parent)) == After(View(codec, d), Delete(id))
  {
    DeletedIsAlmost(codec, d, id);
    SessionPath(codec, d, id);
    var d1, at := Deleted(d, id), d.paths[id].parent;
    PruneRestores(codec, d1, at);
    var d2 := Pruned(d1, at);
    forall x | x in d1.paths ensures SessionRecord(codec, d2, x) == View(codec, d).records[x] {
      DeletedSession(codec, d, id, x);
      PruningKeepsRecords(codec, d1, at, x);
    }
    ViewIs(codec, d2, After(View(codec, d), Delete(id)));
  }

  lemma DeletingFiles<E>(d: State<E>, id: SessionId, at: Path)
    requires id in d.paths
    ensures Filings(Pruned(Deleted(d, id), at)) == Filings(d) - {id}
  {
  }

  // ---------------------------------------------------------------- the transcript

  function WithLog<E>(d: State<E>, id: SessionId, log: Bytes, events: seq<E>): State<E>
    requires id in d.paths && d.paths[id] in d.tree
  {
    d.(tree := d.tree[d.paths[id] := d.tree[d.paths[id]].(log := Some(log))], logs := d.logs[id := events])
  }

  lemma AppendingKeepsOrder<E>(codec: Codec<E>, d: State<E>, id: SessionId, e: E)
    requires Consistent(codec, d) && id in d.paths
    ensures d.paths[id] in d.tree && d.tree[d.paths[id]].log.Some?
    ensures var log := d.tree[d.paths[id]].log.value;
            Consistent(codec, WithLog(d, id, Appended(codec, log, e), d.logs[id] + [e]))
  {
    SessionPath(codec, d, id);
    AppendIsEncoding(codec, d.logs[id], e);
    var log := d.tree[d.paths[id]].log.value;
    var d1 := WithLog(d, id, Appended(codec, log, e), d.logs[id] + [e]);
    forall p | p in d1.tree ensures Settled(d1, p) {
      assert Settled(d, p);
      if !IsSession(d, p) && !IsBase(p) {
        var c :| c in d.tree && c.Child? && c.parent == p;
        assert c in d1.tree;
      }
    }
    forall x | x in d.paths ensures SessionOk(codec, d1, x) {
      assert SessionOk(codec, d, x);
      if x != id {
        assert d.paths[x].name == IdName(x) && d.paths[id].name == IdName(id);
        SessionSurvives(codec, d, d1, x);
      }
    }
  }

  /** Appending a record to a transcript does what the store prescribes. */
  lemma {:induction false} AppendingStores<E>(codec: Codec<E>, d: State<E>, id: SessionId, e: E)
    requires Consistent(codec, d) && id in d.paths
    ensures d.paths[id] in d.tree && d.tree[d.paths[id]].log.Some?
    ensures var log := d.tree[d.paths[id]].log.value;
            var d1 := WithLog(d, id, Appended(codec, log, e), d.logs[id] + [e]);
            Consistent(codec, d1) && View(codec, d1) == After(View(codec, d), Append(id, e))
  {
    AppendingKeepsOrder(codec, d, id, e);
    var log := d.tree[d.paths[id]].log.value;
    var d1 := WithLog(d, id, Appended(codec, log, e), d.logs[id] + [e]);
    forall x | x in d.paths ensures SessionRecord(codec, d1, x) == View(codec, d).records[x] {
      assert SessionOk(codec, d, x);
    }
    ViewIs(codec, d1, After(View(codec, d), Append(id, e)));
  }
}
