/**
 What the cached views say of their terminals, and which views go (crates/dwo-agent-service/src/session.rs,
 `TerminalViewCache`): command, working directory, status and exit code as the telemetry told them; evictions
 and trimming that take the oldest first and no more than they must.
 */
module TerminalStatus {
  import opened Common
  import opened Events
  import opened TerminalCache

  // ---------------------------------------------------------------- what the telemetry tells of a terminal

  /** The last time a terminal was opened. */
  function OpenOf(log: seq<Telemetry>, id: TerminalId): Option<Telemetry> {
    if log == [] then None
    else
      var e := log[|log| - 1];
      if e.Opened? && e.id == id then Some(e) else OpenOf(log[..|log| - 1], id)
  }

  /** Its last exit since then. */
  function ExitOf(log: seq<Telemetry>, id: TerminalId): Option<Telemetry> {
    if log == [] then None
    else
      var e := log[|log| - 1];
      if e.Opened? && e.id == id then None
      else if e.Exited? && e.id == id then Some(e)
      else ExitOf(log[..|log| - 1], id)
  }

  /** The view says what the log says: where and how it was opened, and how it exited, or that it runs. */
  predicate Told(v: View, log: seq<Telemetry>) {
    && OpenOf(log, v.id) == Some(Opened(v.toolCall, v.id, v.command, v.cwd))
    && match ExitOf(log, v.id)
       case None => v.status == "running" && v.exitCode.None?
       case Some(e) =>
         e.Exited? && v.exitCode == e.exitCode
         && |v.status| == Min(64, |e.status|) && v.status <= e.status
  }

  ghost predicate AllTold(views: seq<View>, log: seq<Telemetry>) {
    forall v :: v in views ==> Told(v, log)
  }

  predicate SameStory(v: View, v': View) {
    && v'.id == v.id && v'.toolCall == v.toolCall && v'.command == v.command && v'.cwd == v.cwd
    && v'.status == v.status && v'.exitCode == v.exitCode
  }

  lemma TellsMore(log: seq<Telemetry>, e: Telemetry, id: TerminalId)
    ensures OpenOf(log + [e], id) == if e.Opened? && e.id == id then Some(e) else OpenOf(log, id)
    ensures ExitOf(log + [e], id) == if e.Opened? && e.id == id then None
                                     else if e.Exited? && e.id == id then Some(e) else ExitOf(log, id)
  {
    assert (log + [e])[..|log|] == log;
  }

  /** What an event does not open or exit still tells the log. */
  lemma StillTold(v: View, v': View, log: seq<Telemetry>, e: Telemetry)
    requires Told(v, log) && SameStory(v, v') && !((e.Opened? || e.Exited?) && e.id == v.id)
    ensures Told(v', log + [e])
  {
    TellsMore(log, e, v.id);
  }

  lemma OpenedTold(views: seq<View>, log: seq<Telemetry>, e: Telemetry)
    requires AllTold(views, log) && e.Opened? && !Cached(views, e.id)
    ensures AllTold(Observe(views, e), log + [e])
  {
    var view := View(e.id, e.toolCall, e.command, e.cwd, [], 0, "running", None);
    if view.Metadata() <= VIEW_METADATA_BYTES {
      EvictIsPart(views, view.Metadata());
    }
    TellsMore(log, e, e.id);
    forall v | v in Observe(views, e) ensures Told(v, log + [e]) {
      if v != view {
        assert v in views && v.id != e.id;
        StillTold(v, v, log, e);
      }
    }
  }

  lemma OutputTold(views: seq<View>, log: seq<Telemetry>, e: Telemetry)
    requires AllTold(views, log) && WithinBudgets(views) && e.Output?
    ensures AllTold(Observe(views, e), log + [e])
  {
    if Cached(views, e.id) {
      var i, front, newest := OutputShape(views, e.id, e.data);
      AppendCounts(views[i], e.data);
      StillTold(views[i], newest, log, e);
      forall k | 0 <= k < |front| ensures Told(front[k], log + [e]) {
        assert Without(views, i)[k] in views && Trimmed(Without(views, i)[k], front[k]);
        StillTold(Without(views, i)[k], front[k], log, e);
      }
    } else {
      forall v | v in views ensures Told(v, log + [e]) {
        StillTold(v, v, log, e);
      }
    }
  }

  lemma ExitedTold(views: seq<View>, log: seq<Telemetry>, e: Telemetry)
    requires AllTold(views, log) && WithinBudgets(views) && e.Exited?
    ensures AllTold(Observe(views, e), log + [e])
  {
    var i := Find(views, e.id);
    var others := if i < |views| then Without(views, i) else views;
    if i < |views| {
      WithoutKeeps(views, i);
      assert Told(views[i], log);
      TellsMore(log, e, e.id);
    }
    forall v | v in others ensures Told(v, log + [e]) {
      assert v in views && v.id != e.id;
      StillTold(v, v, log, e);
    }
  }

  /**
   After any log of fresh terminals: every cached view carries the tool call, command and directory of its
   terminal's last opening, and the status and exit code of its last exit since, or says that it is running.
   */
  lemma {:induction false} ViewsTellTheLog(log: seq<Telemetry>)
    requires FreshOpens(log)
    ensures AllTold(Views(log), log)
  {
    if log != [] {
      var front, e := log[..|log| - 1], log[|log| - 1];
      assert forall k :: 0 <= k < |front| ==> front[..k] == log[..k];
      ViewsTellTheLog(front);
      CacheIsSound(front);
      assert log == front + [e];
      match e
      case Opened(_, _, _, _) => OpenedTold(Views(front), front, e);
      case Output(_, _) => OutputTold(Views(front), front, e);
      case Exited(_, _, _) => ExitedTold(Views(front), front, e);
      case FileTouched(_) =>
        forall v | v in Views(front) ensures Told(v, log) {
          StillTold(v, v, front, e);
        }
    }
  }

  /** No terminal is reported to have exited with the status of one that runs. */
  ghost predicate HonestExits(log: seq<Telemetry>) {
    forall k :: 0 <= k < |log| && log[k].Exited? ==> log[k].status != "running"
  }

  lemma {:induction false} ExitIsInLog(log: seq<Telemetry>, id: TerminalId)
    ensures ExitOf(log, id).Some? ==> ExitOf(log, id).value in log
  {
    if log != [] {
      ExitIsInLog(log[..|log| - 1], id);
    }
  }

  /** With honest exits, a cached view runs exactly if its terminal has not exited since it was opened. */
  lemma {:induction false} RunningMeansNoExit(log: seq<Telemetry>, v: View)
    requires FreshOpens(log) && HonestExits(log) && v in Views(log)
    ensures v.Running() <==> ExitOf(log, v.id).None?
  {
    ViewsTellTheLog(log);
    ExitIsInLog(log, v.id);
    assert Told(v, log);
  }

  /** No terminal that runs is evicted while one that has exited stays cached. */
  lemma {:induction false} ExitedGoFirst(log: seq<Telemetry>, e: Telemetry, v: View, u: View)
    requires FreshOpens(log + [e]) && HonestExits(log + [e]) && e.Opened?
    requires v in Views(log) && ExitOf(log, v.id).None? && v !in Views(log + [e])
    requires u in Views(log + [e])
    ensures ExitOf(log + [e], u.id).None?
  {
    var more := log + [e];
    assert more[..|log|] == log && Views(more) == Observe(Views(log), e);
    assert forall k :: 0 <= k < |log| ==> log[..k] == more[..k] && log[k] == more[k];
    RunningMeansNoExit(log, v);
    RunningMeansNoExit(more, u);
    var view := View(e.id, e.toolCall, e.command, e.cwd, [], 0, "running", None);
    EvictSparesRunning(Views(log), view.Metadata(), v);
  }

  // ---------------------------------------------------------------- what stays cached

  /** Only an opening makes a terminal cached, and it does unless its own metadata is over the budget. */
  lemma {:induction false} OpeningCaches(views: seq<View>, e: Telemetry)
    requires e.Opened? && !Cached(views, e.id)
    ensures Cached(Observe(views, e), e.id) <==> |e.id| + |e.toolCall| + |e.command| + |e.cwd| <= VIEW_METADATA_BYTES
  {
    var view := View(e.id, e.toolCall, e.command, e.cwd, [], 0, "running", None);
    if view.Metadata() <= VIEW_METADATA_BYTES {
      var r := Observe(views, e);
      assert r[|r| - 1] == view;
    }
  }

  /** Only an opening for which there is no room makes a view go. */
  lemma {:induction false} OnlyOpeningsEvict(views: seq<View>, e: Telemetry, id: TerminalId)
    requires WithinBudgets(views) && Cached(views, id)
    requires e.Opened? ==> Cached(views, e.id) || !MustEvict(views, |e.id| + |e.toolCall| + |e.command| + |e.cwd|)
    ensures Cached(Observe(views, e), id)
  {
    var j := Find(views, id);
    match e
    case Opened(_, _, _, _) =>
      var r := Observe(views, e);
      assert r[j].id == id;
    case Output(_, _) =>
      if Cached(views, e.id) {
        var i, front, newest := OutputShape(views, e.id, e.data);
        forall k | 0 <= k < |front| ensures front[k].id == Without(views, i)[k].id {
          assert Trimmed(Without(views, i)[k], front[k]);
        }
        StaysFound(views, i, front, newest, j);
      }
    case Exited(_, _, _) =>
      if Cached(views, e.id) {
        var i := Find(views, e.id);
        var r := Observe(views, e);
        StaysFound(views, i, Without(views, i), r[|r| - 1], j);
      }
    case FileTouched(_) =>
  }

  lemma StaysFound(views: seq<View>, i: nat, front: seq<View>, newest: View, j: nat)
    requires i < |views| && j < |views| && newest.id == views[i].id && |front| == |views| - 1
    requires forall k :: 0 <= k < |front| ==> front[k].id == Without(views, i)[k].id
    ensures Cached(front + [newest], views[j].id)
  {
    var r := front + [newest];
    var k := if j < i then j else if j == i then |front| else j - 1;
    assert r[k].id == views[j].id;
  }

  // ---------------------------------------------------------------- evictions and trimming

  /** A view must go exactly when another view with this much metadata would break a budget. */
  lemma NoRoomMeansOverBudget(views: seq<View>, metadata: nat)
    requires |views| <= VIEW_COUNT
    ensures MustEvict(views, metadata)
      <==> |views| + 1 > VIEW_COUNT || TotalMetadata(views) + metadata > TOTAL_METADATA_BYTES
  {
  }

  /** The views that have exited, in their order. */
  function OnlyExited(views: seq<View>): seq<View> {
    if views == [] then []
    else (if views[0].Running() then [] else [views[0]]) + OnlyExited(views[1..])
  }

  lemma {:induction false} FirstExitedGoes(views: seq<View>)
    requires FirstExited(views) < |views|
    ensures var r := Without(views, FirstExited(views));
            && OnlyExited(views) != [] && OnlyExited(r) == OnlyExited(views)[1..]
            && OnlyRunning(r) == OnlyRunning(views)
  {
    if views[0].Running() {
      FirstExitedGoes(views[1..]);
      var n := FirstExited(views[1..]);
      assert FirstExited(views) == n + 1;
      WithoutLater(views, n);
    } else {
      assert Without(views, 0) == views[1..];
    }
  }

  lemma WithoutLater(views: seq<View>, n: nat)
    requires n + 1 < |views|
    ensures var r := Without(views, n + 1);
            r != [] && r[0] == views[0] && r[1..] == Without(views[1..], n)
  {
  }

  lemma {:induction false} NoneExited(views: seq<View>)
    requires FirstExited(views) == |views|
    ensures OnlyExited(views) == [] && OnlyRunning(views) == views
  {
    if views != [] {
      NoneExited(views[1..]);
    }
  }

  /** Evictions take the exited terminals, oldest first, and only then the running ones, oldest first. */
  lemma {:induction false} EvictTakesTheOldest(views: seq<View>, metadata: nat) returns (exited: nat, running: nat)
    requires metadata <= VIEW_METADATA_BYTES
    ensures exited <= |OnlyExited(views)| && running <= |OnlyRunning(views)|
    ensures OnlyExited(Evict(views, metadata)) == OnlyExited(views)[exited..]
    ensures OnlyRunning(Evict(views, metadata)) == OnlyRunning(views)[running..]
    ensures running > 0 ==> exited == |OnlyExited(views)|
    decreases |views|
  {
    exited, running := 0, 0;
    if MustEvict(views, metadata) {
      exited, running := EvictTakesTheOldest(Without(views, Victim(views)), metadata);
      if FirstExited(views) < |views| {
        FirstExitedGoes(views);
        exited := exited + 1;
      } else {
        NoneExited(views);
        assert Without(views, 0) == views[1..];
        NoneRemains(views);
        running := running + 1;
      }
    }
  }

  lemma NoneRemains(views: seq<View>)
    requires views != [] && FirstExited(views) == |views|
    ensures OnlyExited(views[1..]) == [] && OnlyRunning(views[1..]) == views[1..]
  {
    NoneExited(views[1..]);
  }

  /** Evictions stop as soon as there is room: with the last view evicted back in its place there was none. */
  lemma {:induction false} EvictStopsInTime(views: seq<View>, metadata: nat) returns (last: seq<View>)
    requires metadata <= VIEW_METADATA_BYTES && MustEvict(views, metadata)
    ensures MustEvict(last, metadata) && Evict(views, metadata) == Without(last, Victim(last))
    ensures forall v :: v in last ==> v in views
    decreases |views|
  {
    var rest := Without(views, Victim(views));
    if MustEvict(rest, metadata) {
      last := EvictStopsInTime(rest, metadata);
    } else {
      last := views;
    }
  }

  /** A view loses bytes only when all older ones have lost theirs. */
  lemma {:induction false} OldestPayFirst(views: seq<View>, excess: nat, i: nat, j: nat)
    requires i < j < |views| && TrimOldest(views, excess)[j] != views[j]
    ensures TrimOldest(views, excess)[i].output == []
    decreases |views|
  {
    var remove := Min(excess, |views[0].output|);
    var rest := excess - remove;
    if i > 0 {
      OldestPayFirst(views[1..], rest, i - 1, j - 1);
    }
  }

  /** What is over the total budget goes, oldest bytes first, and not a byte more. */
  lemma {:induction false} SettleTakesTheExcess(views: seq<View>)
    ensures TotalBytes(Settle(views)) == Min(TotalBytes(views), TOTAL_BYTES)
    ensures forall i, j :: 0 <= i < j < |views| && Settle(views)[j] != views[j] ==> Settle(views)[i].output == []
  {
    TrimOldestCuts(views, Excess(views));
    forall i, j | 0 <= i < j < |views| && Settle(views)[j] != views[j] ensures Settle(views)[i].output == [] {
      OldestPayFirst(views, Excess(views), i, j);
    }
  }
}
