/**
 Finding the sessions on disk (crates/dwo-agent-service/src/repository.rs, scan_session_dirs): a worklist of
 directories, from one of the two base directories down, in whatever order the entries are read.
 */
module Scan {
  import opened Disk

  /** The directories a scan from `base` comes to: it does not go below a session, nor into the archive. */
  predicate Reach(tree: Tree, base: Path, p: Path) {
    p == base
    || (p.Child? && p in tree && p.parent in tree && Reach(tree, base, p.parent)
        && (p.parent == base || tree[p.parent].meta.None?)
        && !(p.parent == base && p.name == ArchiveName))
  }

  predicate IsFound(tree: Tree, base: Path, p: Path) {
    p in tree && p != base && Reach(tree, base, p) && tree[p].meta.Some?
  }

  /** A set that holds the base and all that is reached directly from its members holds all. */
  lemma {:induction false} ReachedAreDone(tree: Tree, base: Path, done: set<Path>, p: Path)
    requires base in done && Reach(tree, base, p)
    requires forall q :: q in tree && q.Child? && q != base && q.parent in done && Reach(tree, base, q)
                         ==> q in done
    ensures p in done
  {
    if p != base {
      ReachedAreDone(tree, base, done, p.parent);
    }
  }

  function Depth(p: Path): nat {
    if p.Root? then 0 else 1 + Depth(p.parent)
  }

  lemma {:induction false} ReachGoesDown(tree: Tree, base: Path, p: Path)
    requires Reach(tree, base, p)
    ensures Depth(base) <= Depth(p)
  {
    if p != base {
      ReachGoesDown(tree, base, p.parent);
    }
  }

  function Subdirectories(tree: Tree, p: Path): set<Path> {
    set q | q in tree && q.Child? && q.parent == p
  }

  /**
   The state of the scan: directories on the stack, directories done, and the entries of the directory
   being read that are still to come. Nothing reachable from a done directory is forgotten.
   */
  ghost predicate Frontier(tree: Tree, base: Path, stack: seq<Path>, done: set<Path>, entries: set<Path>) {
    && (forall p :: p in stack ==> p in tree && Reach(tree, base, p) && p !in done)
    && (forall i, j :: 0 <= i < j < |stack| ==> stack[i] != stack[j])
    && (forall p :: p in done ==> p in tree && Reach(tree, base, p))
    && (base in done || base in stack)
    && (forall p :: p in done || p in stack ==> p == base || (p.Child? && p.parent in done))
    && (forall p :: p in tree && p.Child? && p.parent in done && Reach(tree, base, p)
                    ==> p in done || p in stack || p in entries)
    && (forall p :: p in entries ==> p in tree && p.Child? && p.parent in done
                                     && p !in done && p !in stack && p != base)
  }

  lemma {:induction false} PopSession(tree: Tree, base: Path, stack: seq<Path>, done: set<Path>, d: Path)
    requires Frontier(tree, base, stack + [d], done, {})
    requires d != base && tree[d].meta.Some?
    ensures Frontier(tree, base, stack, done + {d}, {})
  {
    assert (stack + [d])[|stack|] == d;
    assert forall p :: p in stack + [d] <==> p in stack || p == d;
    assert forall i :: 0 <= i < |stack| ==> (stack + [d])[i] == stack[i];
  }

  lemma {:induction false} PopDirectory(tree: Tree, base: Path, stack: seq<Path>, done: set<Path>, d: Path)
    requires Frontier(tree, base, stack + [d], done, {})
    ensures d in tree && Reach(tree, base, d) && d !in done
    ensures Frontier(tree, base, stack, done + {d}, Subdirectories(tree, d))
  {
    assert (stack + [d])[|stack|] == d;
    assert forall p :: p in stack + [d] <==> p in stack || p == d;
    assert forall i :: 0 <= i < |stack| ==> (stack + [d])[i] == stack[i];
    forall q | q in Subdirectories(tree, d) ensures q !in done + {d} && q !in stack && q != base {
      ReachGoesDown(tree, base, d);
      assert Depth(q) == Depth(d) + 1;
    }
  }

  lemma {:induction false} PushEntry(tree: Tree, base: Path, stack: seq<Path>, done: set<Path>, entries: set<Path>, q: Path)
    requires Frontier(tree, base, stack, done, entries) && q in entries && Reach(tree, base, q)
    ensures Frontier(tree, base, stack + [q], done, entries - {q})
  {
    assert forall p :: p in stack + [q] <==> p in stack || p == q;
  }

  /** scan_session_dirs */
  method ScanSessionDirs(tree: Tree, base: Path) returns (sessions: seq<Path>)
    requires base in tree
    ensures forall p :: p in sessions <==> IsFound(tree, base, p)
  {
    var directories := [base];
    sessions := [];
    ghost var done: set<Path> := {};
    while directories != []
      invariant Frontier(tree, base, directories, done, {})
      invariant forall p :: p in sessions <==> p in done && p != base && p in tree && tree[p].meta.Some?
      decreases tree.Keys - done
    {
      var directory := directories[|directories| - 1];
      assert directories == directories[..|directories| - 1] + [directory];
      directories := directories[..|directories| - 1];
      PopDirectory(tree, base, directories, done, directory);
      if directory != base && tree[directory].meta.Some? {
        PopSession(tree, base, directories, done, directory);
        done := done + {directory};
        sessions := sessions + [directory];
        continue;
      }
      done := done + {directory};
      directories := PushSubdirectories(tree, base, directories, directory, done);
    }
    forall p | Reach(tree, base, p) ensures p in done {
      ReachedAreDone(tree, base, done, p);
    }
  }

  /** The inner loop: every subdirectory but the archive is pushed, in whatever order they are read. */
  method PushSubdirectories(tree: Tree, base: Path, directories: seq<Path>, directory: Path,
                            ghost done: set<Path>) returns (stack: seq<Path>)
    requires Frontier(tree, base, directories, done, Subdirectories(tree, directory))
    requires directory in done && (directory == base || tree[directory].meta.None?)
    ensures Frontier(tree, base, stack, done, {})
  {
    stack := directories;
    var entries := Subdirectories(tree, directory);
    while entries != {}
      invariant entries <= Subdirectories(tree, directory) && Frontier(tree, base, stack, done, entries)
      decreases entries
    {
      var q :| q in entries;
      if !(directory == base && q.name == ArchiveName) {
        PushEntry(tree, base, stack, done, entries, q);
        stack := stack + [q];
      }
      entries := entries - {q};
    }
  }
}
