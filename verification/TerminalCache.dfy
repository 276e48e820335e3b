/**
 The byte-retaining, least-recently-updated cache of terminal views
 (crates/dwo-agent-service/src/session.rs, `TerminalViewCache`).

 Four budgets bound it: bytes per terminal, bytes in all, number of views, and metadata. The
 functions give its specification, the lemmas the budgets and the byte accounting, and the class
 the imperative cache proved against the functions.
 */
module TerminalCache {
  import opened Common
  import opened Events

  const VIEW_BYTES := 256 * 1024
  const TOTAL_BYTES := 1024 * 1024
  const VIEW_COUNT := 64
  const VIEW_METADATA_BYTES := 16 * 1024
  const TOTAL_METADATA_BYTES := 64 * 1024

  datatype View = View(
    id: TerminalId,
    toolCall: seq<byte>,
    command: seq<byte>,
    cwd: seq<byte>,
    output: seq<byte>,
    dropped: nat,
    status: string,
    exitCode: Option<int>)
  {
    function Metadata(): nat {
      |id| + |toolCall| + |command| + |cwd|
    }

    predicate Running() {
      status == "running"
    }

    /** TerminalViewCache::trim */
    function Trim(count: nat): View
      requires count <= |output|
    {
      this.(output := output[count..], dropped := dropped + count)
    }
  }

  /** The telemetry the cache reacts to. */
  datatype Telemetry =
    | Opened(toolCall: seq<byte>, id: TerminalId, command: seq<byte>, cwd: seq<byte>)
    | Output(id: TerminalId, data: seq<byte>)
    | Exited(id: TerminalId, exitCode: Option<int>, status: string)
    | FileTouched(entry: string)  // FileRead and FileChanged

  function TotalBytes(views: seq<View>): nat {
    if views == [] then 0 else |views[0].output| + TotalBytes(views[1..])
  }

  function TotalMetadata(views: seq<View>): nat {
    if views == [] then 0 else views[0].Metadata() + TotalMetadata(views[1..])
  }

  /** The position of a terminal in the cache, or the number of views. */
  function Find(views: seq<View>, id: TerminalId): (i: nat)
    ensures i <= |views|
    ensures i < |views| ==> views[i].id == id
    ensures forall k :: 0 <= k < i ==> views[k].id != id
  {
    if views == [] || views[0].id == id then 0 else 1 + Find(views[1..], id)
  }

  predicate Cached(views: seq<View>, id: TerminalId) {
    Find(views, id) < |views|
  }

  function Without(views: seq<View>, i: nat): seq<View>
    requires i < |views|
  {
    views[..i] + views[i + 1..]
  }

  /** The first view that is not running; the oldest view when all of them run. */
  function Victim(views: seq<View>): nat
    requires views != []
  {
    var i := FirstExited(views);
    if i < |views| then i else 0
  }

  function FirstExited(views: seq<View>): (i: nat)
    ensures i <= |views|
    ensures i < |views| ==> !views[i].Running()
    ensures forall k :: 0 <= k < i ==> views[k].Running()
  {
    if views == [] || !views[0].Running() then 0 else 1 + FirstExited(views[1..])
  }

  predicate MustEvict(views: seq<View>, metadata: nat) {
    |views| == VIEW_COUNT || TotalMetadata(views) + metadata > TOTAL_METADATA_BYTES
  }

  /** The metadata eviction loop. It never runs on an empty cache, hence it ends. */
  function Evict(views: seq<View>, metadata: nat): seq<View>
    requires metadata <= VIEW_METADATA_BYTES
    decreases |views|
  {
    if MustEvict(views, metadata) then Evict(Without(views, Victim(views)), metadata) else views
  }

  /** Take `excess` bytes from the front of the views, the least recently updated first. */
  function TrimOldest(views: seq<View>, excess: nat): (r: seq<View>)
    ensures |r| == |views|
  {
    if views == [] || excess == 0 then views
    else
      var remove := Min(excess, |views[0].output|);
      [views[0].Trim(remove)] + TrimOldest(views[1..], excess - remove)
  }

  /** Append a chunk, keeping the last VIEW_BYTES bytes and counting every byte that goes. */
  function Append(v: View, data: seq<byte>): View {
    var incoming := Min(|data|, VIEW_BYTES);
    var remove := if |v.output| + incoming > VIEW_BYTES then |v.output| + incoming - VIEW_BYTES else 0;
    var trimmed := v.Trim(remove);
    trimmed.(dropped := trimmed.dropped + (|data| - incoming), output := trimmed.output + data[|data| - incoming..])
  }

  function Excess(views: seq<View>): nat {
    var total := TotalBytes(views);
    if total > TOTAL_BYTES then total - TOTAL_BYTES else 0
  }

  /** Bring the cache back within its total byte budget. */
  function Settle(views: seq<View>): seq<View> {
    TrimOldest(views, Excess(views))
  }

  function Observe(views: seq<View>, e: Telemetry): seq<View> {
    match e
    case Opened(toolCall, id, command, cwd) =>
      var view := View(id, toolCall, command, cwd, [], 0, "running", None);
      if Cached(views, id) || view.Metadata() > VIEW_METADATA_BYTES then views
      else Evict(views, view.Metadata()) + [view]
    case Output(id, data) =>
      if !Cached(views, id) then views
      else
        var i := Find(views, id);
        Settle(Without(views, i) + [Append(views[i], data)])
    case Exited(id, exitCode, status) =>
      if !Cached(views, id) then views
      else
        var i := Find(views, id);
        Without(views, i) + [views[i].(exitCode := exitCode, status := status[..Min(64, |status|)])]
    case FileTouched(_) => views
  }

  // ---------------------------------------------------------------- sums

  lemma {:induction false} TotalsAppend(a: seq<View>, b: seq<View>)
    ensures TotalBytes(a + b) == TotalBytes(a) + TotalBytes(b)
    ensures TotalMetadata(a + b) == TotalMetadata(a) + TotalMetadata(b)
  {
    if a == [] {
      assert a + b == b;
    } else {
      TotalsAppend(a[1..], b);
      assert (a + b)[1..] == a[1..] + b;
    }
  }

  lemma TotalsWithout(views: seq<View>, i: nat)
    requires i < |views|
    ensures TotalBytes(Without(views, i)) == TotalBytes(views) - |views[i].output|
    ensures TotalMetadata(Without(views, i)) == TotalMetadata(views) - views[i].Metadata()
  {
    assert views == views[..i] + ([views[i]] + views[i + 1..]);
    TotalsAppend(views[..i], [views[i]] + views[i + 1..]);
    TotalsAppend([views[i]], views[i + 1..]);
    TotalsAppend(views[..i], views[i + 1..]);
  }

  // ---------------------------------------------------------------- the budgets

  ghost predicate Distinct(views: seq<View>) {
    forall i, j :: 0 <= i < j < |views| ==> views[i].id != views[j].id
  }

  ghost predicate EachWithin(views: seq<View>) {
    forall k :: 0 <= k < |views| ==> |views[k].output| <= VIEW_BYTES && views[k].Metadata() <= VIEW_METADATA_BYTES
  }

  /** The four budgets, and one view per terminal. */
  ghost predicate WithinBudgets(views: seq<View>) {
    && Distinct(views)
    && EachWithin(views)
    && TotalBytes(views) <= TOTAL_BYTES
    && |views| <= VIEW_COUNT
    && TotalMetadata(views) <= TOTAL_METADATA_BYTES
  }

  /** `v'` is `v` with some bytes, all counted, gone from the front of its output. */
  predicate Trimmed(v: View, v': View) {
    && v.dropped <= v'.dropped <= v.dropped + |v.output|
    && v' == v.Trim(v'.dropped - v.dropped)
  }

  ghost predicate AllTrimmed(views: seq<View>, views': seq<View>) {
    |views| == |views'| && forall k {:trigger Trimmed(views[k], views'[k])} :: 0 <= k < |views| ==> Trimmed(views[k], views'[k])
  }

  lemma AllTrimmedKeeps(views: seq<View>, views': seq<View>)
    requires AllTrimmed(views, views') && Distinct(views) && EachWithin(views)
    ensures Distinct(views') && EachWithin(views')
  {
    assert forall k :: 0 <= k < |views| ==> Trimmed(views[k], views'[k]) && views[k].id == views'[k].id;
  }

  lemma WithoutKeeps(views: seq<View>, i: nat)
    requires Distinct(views) && EachWithin(views) && i < |views|
    ensures var r := Without(views, i);
            && Distinct(r) && EachWithin(r)
            && (forall k :: 0 <= k < |r| ==> r[k] in views && r[k].id != views[i].id)
  {
    var r := Without(views, i);
    assert forall k :: 0 <= k < |r| ==> r[k] == views[if k < i then k else k + 1];
  }

  lemma NewestKeeps(older: seq<View>, newest: View)
    requires Distinct(older) && EachWithin(older)
    requires forall k :: 0 <= k < |older| ==> older[k].id != newest.id
    requires |newest.output| <= VIEW_BYTES && newest.Metadata() <= VIEW_METADATA_BYTES
    ensures Distinct(older + [newest]) && EachWithin(older + [newest])
  {
  }

  lemma {:induction false} TrimOldestCuts(views: seq<View>, excess: nat)
    requires excess <= TotalBytes(views)
    ensures TotalBytes(TrimOldest(views, excess)) == TotalBytes(views) - excess
    ensures TotalMetadata(TrimOldest(views, excess)) == TotalMetadata(views)
  {
    if views != [] && excess != 0 {
      var remove := Min(excess, |views[0].output|);
      TrimOldestCuts(views[1..], excess - remove);
      var rest := TrimOldest(views[1..], excess - remove);
      assert TrimOldest(views, excess)[1..] == rest;
    }
  }

  /** The same trimming in the order of the source's loop: from position i on, in place. */
  function TrimFrom(views: seq<View>, i: nat, excess: nat): seq<View>
    requires i <= |views|
    decreases |views| - i
  {
    if i == |views| || excess == 0 then views
    else
      var cut := Min(excess, |views[i].output|);
      TrimFrom(views[i := views[i].Trim(cut)], i + 1, excess - cut)
  }

  lemma {:induction false} TrimFromIsTrimOldest(views: seq<View>, i: nat, excess: nat)
    requires i <= |views|
    ensures TrimFrom(views, i, excess) == views[..i] + TrimOldest(views[i..], excess)
    decreases |views| - i
  {
    if i < |views| && excess != 0 {
      var cut := Min(excess, |views[i].output|);
      var next := views[i := views[i].Trim(cut)];
      TrimFromIsTrimOldest(next, i + 1, excess - cut);
      assert next[i + 1..] == views[i..][1..];
      assert next[..i + 1] == views[..i] + [views[i].Trim(cut)];
      Assoc(views[..i], [views[i].Trim(cut)], TrimOldest(views[i..][1..], excess - cut));
    } else {
      assert views[..i] + views[i..] == views;
    }
  }

  lemma {:induction false} TrimOldestTrims(views: seq<View>, excess: nat)
    ensures AllTrimmed(views, TrimOldest(views, excess))
  {
    if views != [] && excess != 0 {
      var remove := Min(excess, |views[0].output|);
      var rest := TrimOldest(views[1..], excess - remove);
      TrimOldestTrims(views[1..], excess - remove);
      AllTrimmedCons(views[0], views[0].Trim(remove), views[1..], rest);
      assert views == [views[0]] + views[1..];
      assert TrimOldest(views, excess) == [views[0].Trim(remove)] + rest;
    } else {
      forall k | 0 <= k < |views| ensures Trimmed(views[k], views[k]) {
        assert views[k].output[0..] == views[k].output;
      }
    }
  }

  lemma AllTrimmedCons(v: View, v': View, views: seq<View>, views': seq<View>)
    requires Trimmed(v, v') && AllTrimmed(views, views')
    ensures AllTrimmed([v] + views, [v'] + views')
  {
    forall k | 0 <= k < |views| + 1 ensures Trimmed(([v] + views)[k], ([v'] + views')[k]) {
      if k > 0 {
        assert Trimmed(views[k - 1], views'[k - 1]);
      }
    }
  }

  /** Older views pay first: the newest view keeps all it has if the others hold the excess. */
  lemma {:induction false} TrimOldestSparesTheNewest(older: seq<View>, newest: View, excess: nat)
    requires excess <= TotalBytes(older)
    ensures TrimOldest(older + [newest], excess)[|older|] == newest
  {
    if older != [] && excess != 0 {
      var remove := Min(excess, |older[0].output|);
      assert (older + [newest])[1..] == older[1..] + [newest];
      TrimOldestSparesTheNewest(older[1..], newest, excess - remove);
    }
  }

  lemma {:induction false} EvictKeepsBudgets(views: seq<View>, metadata: nat)
    requires metadata <= VIEW_METADATA_BYTES && WithinBudgets(views)
    ensures var r := Evict(views, metadata);
            && WithinBudgets(r) && !MustEvict(r, metadata)
            && (forall v :: v in r ==> v in views)
    decreases |views|
  {
    if MustEvict(views, metadata) {
      var i := Victim(views);
      TotalsWithout(views, i);
      WithoutKeeps(views, i);
      EvictKeepsBudgets(Without(views, i), metadata);
    }
  }

  function OnlyRunning(views: seq<View>): seq<View> {
    if views == [] then []
    else (if views[0].Running() then [views[0]] else []) + OnlyRunning(views[1..])
  }

  lemma {:induction false} OnlyRunningWithout(views: seq<View>, i: nat)
    requires i < |views| && !views[i].Running()
    ensures OnlyRunning(Without(views, i)) == OnlyRunning(views)
  {
    if i > 0 {
      OnlyRunningWithout(views[1..], i - 1);
      assert Without(views, i)[1..] == Without(views[1..], i - 1);
    } else {
      assert Without(views, 0) == views[1..];
    }
  }

  lemma {:induction false} AllRunning(views: seq<View>)
    requires forall v :: v in views ==> v.Running()
    ensures OnlyRunning(views) == views
  {
    if views != [] {
      assert views[0] in views;
      AllRunning(views[1..]);
    }
  }

  lemma {:induction false} EvictIsPart(views: seq<View>, metadata: nat)
    requires metadata <= VIEW_METADATA_BYTES
    ensures forall u :: u in Evict(views, metadata) ==> u in views
    decreases |views|
  {
    if MustEvict(views, metadata) {
      EvictIsPart(Without(views, Victim(views)), metadata);
    }
  }

  /**
   A running terminal is evicted only when it must be: every exited terminal is gone by then, and the
   running ones alone leave no room for the new one.
   */
  lemma {:induction false} EvictSparesRunning(views: seq<View>, metadata: nat, v: View)
    requires metadata <= VIEW_METADATA_BYTES
    requires v in views && v.Running() && v !in Evict(views, metadata)
    ensures MustEvict(OnlyRunning(views), metadata)
    ensures forall u :: u in Evict(views, metadata) ==> u.Running()
    decreases |views|
  {
    var i := Victim(views);
    if i == FirstExited(views) {
      OnlyRunningWithout(views, i);
      assert v in Without(views, i);
      EvictSparesRunning(Without(views, i), metadata, v);
    } else {
      AllRunning(views);
      EvictIsPart(views, metadata);
    }
  }

  lemma AppendLength(v: View, data: seq<byte>)
    requires |v.output| <= VIEW_BYTES
    ensures Append(v, data).id == v.id
    ensures |Append(v, data).output| == Min(|v.output| + |data|, VIEW_BYTES)
  {
  }

  lemma AppendCounts(v: View, data: seq<byte>)
    requires |v.output| <= VIEW_BYTES
    ensures var r := Append(v, data);
            && |r.output| == Min(|v.output| + |data|, VIEW_BYTES)
            && r.dropped + |r.output| == v.dropped + |v.output| + |data|
            && r.output == (v.output + data)[|v.output| + |data| - |r.output|..]
            && r == v.(output := r.output, dropped := r.dropped)
  {
  }

  /** Settling keeps ids, metadata and the newest view; only older views pay. */
  lemma SettleKeeps(older: seq<View>, newest: View)
    requires |newest.output| <= VIEW_BYTES
    ensures var r := Settle(older + [newest]);
            && AllTrimmed(older + [newest], r)
            && TotalBytes(r) <= TOTAL_BYTES
            && TotalMetadata(r) == TotalMetadata(older + [newest])
            && |r| == |older| + 1 && r[|older|] == newest
  {
    var all := older + [newest];
    TotalsAppend(older, [newest]);
    TrimOldestCuts(all, Excess(all));
    TrimOldestTrims(all, Excess(all));
    TrimOldestSparesTheNewest(older, newest, Excess(all));
  }

  /** An output moves its view to the end, and only the older views pay for the total budget. */
  lemma {:induction false} OutputKeepsBudgets(views: seq<View>, id: TerminalId, data: seq<byte>)
    requires WithinBudgets(views) && Cached(views, id)
    ensures var i := Find(views, id);
            var newest := Append(views[i], data);
            var r := Observe(views, Output(id, data));
            && WithinBudgets(r)
            && |r| == |views| && r[|r| - 1] == newest
            && AllTrimmed(Without(views, i) + [newest], r)
  {
    var i := Find(views, id);
    var older := Without(views, i);
    var newest := Append(views[i], data);
    MovedKeeps(views, i, newest) by {
      AppendCounts(views[i], data);
    }
    SettleKeeps(older, newest) by {
      AppendCounts(views[i], data);
    }
    AllTrimmedKeeps(older + [newest], Settle(older + [newest]));
  }

  /** Replacing a view by a newer one at the end keeps all but the total byte budget. */
  lemma {:induction false} MovedKeeps(views: seq<View>, i: nat, newest: View)
    requires WithinBudgets(views) && i < |views|
    requires newest.id == views[i].id && newest.Metadata() == views[i].Metadata() && |newest.output| <= VIEW_BYTES
    ensures var moved := Without(views, i) + [newest];
            Distinct(moved) && EachWithin(moved) && TotalMetadata(moved) == TotalMetadata(views)
  {
    TotalsWithout(views, i);
    WithoutKeeps(views, i);
    NewestKeeps(Without(views, i), newest);
    TotalsAppend(Without(views, i), [newest]);
  }

  lemma OpenedKeepsBudgets(views: seq<View>, view: View)
    requires WithinBudgets(views) && !Cached(views, view.id)
    requires view.output == [] && view.Metadata() <= VIEW_METADATA_BYTES
    ensures WithinBudgets(Evict(views, view.Metadata()) + [view])
  {
    var kept := Evict(views, view.Metadata());
    EvictKeepsBudgets(views, view.Metadata());
    forall k | 0 <= k < |kept| ensures kept[k].id != view.id {
      assert kept[k] in views;
    }
    NewestKeeps(kept, view);
    TotalsAppend(kept, [view]);
  }

  lemma ExitedKeepsBudgets(views: seq<View>, i: nat, view: View)
    requires WithinBudgets(views) && i < |views|
    requires view == views[i].(exitCode := view.exitCode, status := view.status)
    ensures WithinBudgets(Without(views, i) + [view])
  {
    TotalsWithout(views, i);
    WithoutKeeps(views, i);
    NewestKeeps(Without(views, i), view);
    TotalsAppend(Without(views, i), [view]);
  }

  /** Every observation keeps the four budgets and one view per terminal. */
  lemma {:induction false} ObserveKeepsBudgets(views: seq<View>, e: Telemetry)
    requires WithinBudgets(views)
    ensures WithinBudgets(Observe(views, e))
  {
    match e
    case Opened(toolCall, id, command, cwd) =>
      var view := View(id, toolCall, command, cwd, [], 0, "running", None);
      if !Cached(views, id) && view.Metadata() <= VIEW_METADATA_BYTES {
        OpenedKeepsBudgets(views, view);
      }
    case Output(id, data) =>
      if Cached(views, id) {
        OutputKeepsBudgets(views, id, data);
      }
    case Exited(id, exitCode, status) =>
      if Cached(views, id) {
        var i := Find(views, id);
        ExitedKeepsBudgets(views, i, views[i].(exitCode := exitCode, status := status[..Min(64, |status|)]));
      }
    case FileTouched(_) =>
  }

  lemma AllTrimmedFront(older: seq<View>, newest: View, r: seq<View>)
    requires AllTrimmed(older + [newest], r)
    ensures AllTrimmed(older, r[..|older|])
  {
    forall k | 0 <= k < |older| ensures Trimmed(older[k], r[..|older|][k]) {
      assert (older + [newest])[k] == older[k];
    }
  }

  /** The shape of the cache after an output: the older views, trimmed, then the one written. */
  lemma OutputShape(views: seq<View>, id: TerminalId, data: seq<byte>) returns (i: nat, front: seq<View>, newest: View)
    requires WithinBudgets(views) && Cached(views, id)
    ensures i == Find(views, id) && newest == Append(views[i], data)
    ensures Observe(views, Output(id, data)) == front + [newest] && WithinBudgets(front + [newest])
    ensures AllTrimmed(Without(views, i), front)
  {
    i := Find(views, id);
    newest := Append(views[i], data);
    var r := Observe(views, Output(id, data));
    OutputKeepsBudgets(views, id, data);
    AllTrimmedFront(Without(views, i), newest, r);
    front := r[..|views| - 1];
    assert r == front + [newest];
  }

  /** The terminal just written keeps every byte its own budget lets it keep. */
  lemma JustWrittenIsSpared(views: seq<View>, id: TerminalId, data: seq<byte>)
    requires WithinBudgets(views) && Cached(views, id)
    ensures var v := views[Find(views, id)];
            var r := Observe(views, Output(id, data));
            && r != [] && r[|r| - 1].id == id
            && |r[|r| - 1].output| == Min(|v.output| + |data|, VIEW_BYTES)
  {
    var i, front, newest := OutputShape(views, id, data);
    assert (front + [newest])[|front|] == newest;
    AppendLength(views[i], data);
  }

  // ---------------------------------------------------------------- whole logs of telemetry

  /** The cache after a log of telemetry. */
  function Views(log: seq<Telemetry>): seq<View> {
    if log == [] then [] else Observe(Views(log[..|log| - 1]), log[|log| - 1])
  }

  /** The bytes a terminal wrote since it was last opened. */
  function Stream(log: seq<Telemetry>, id: TerminalId): seq<byte> {
    if log == [] then []
    else
      var before := Stream(log[..|log| - 1], id);
      match log[|log| - 1]
      case Opened(_, id', _, _) => if id' == id then [] else before
      case Output(id', data) => if id' == id then before + data else before
      case _ => before
  }

  predicate Names(e: Telemetry, id: TerminalId) {
    match e
    case Opened(_, id', _, _) => id' == id
    case Output(id', _) => id' == id
    case Exited(id', _, _) => id' == id
    case FileTouched(_) => false
  }

  /** One past the position of the last telemetry about a terminal. */
  function Touched(log: seq<Telemetry>, id: TerminalId): (n: nat)
    ensures n <= |log|
  {
    if log == [] then 0
    else if Names(log[|log| - 1], id) then |log|
    else Touched(log[..|log| - 1], id)
  }

  /** Terminal ids are made fresh, so no terminal is opened while it is cached. */
  ghost predicate FreshOpens(log: seq<Telemetry>) {
    forall k :: 0 <= k < |log| && log[k].Opened? ==> !Cached(Views(log[..k]), log[k].id)
  }

  /** The view holds the stream from offset `dropped` on. */
  predicate Tracks(v: View, stream: seq<byte>) {
    v.dropped <= |stream| && v.output == stream[v.dropped..]
  }

  ghost predicate LeastRecentFirst(views: seq<View>, log: seq<Telemetry>) {
    forall i, j :: 0 <= i < j < |views| ==> Touched(log, views[i].id) < Touched(log, views[j].id)
  }

  /** What holds of the cache after any log: budgets, exact byte accounting, least recent first. */
  ghost predicate Sound(views: seq<View>, log: seq<Telemetry>) {
    && WithinBudgets(views)
    && (forall k :: 0 <= k < |views| ==> Tracks(views[k], Stream(log, views[k].id)))
    && LeastRecentFirst(views, log)
  }

  lemma TrimmedTracks(v: View, v': View, stream: seq<byte>)
    requires Trimmed(v, v') && Tracks(v, stream)
    ensures Tracks(v', stream)
  {
  }

  lemma LogStep(log: seq<Telemetry>, e: Telemetry, id: TerminalId)
    ensures Views(log + [e]) == Observe(Views(log), e)
    ensures !Names(e, id) ==> Stream(log + [e], id) == Stream(log, id) && Touched(log + [e], id) == Touched(log, id)
    ensures Names(e, id) ==> Touched(log + [e], id) == |log| + 1
    ensures e.Output? && e.id == id ==> Stream(log + [e], id) == Stream(log, id) + e.data
    ensures e.Opened? && e.id == id ==> Stream(log + [e], id) == []
    ensures e.Exited? ==> Stream(log + [e], id) == Stream(log, id)
  {
    assert (log + [e])[..|log|] == log;
  }

  lemma WithoutKeepsRecency(views: seq<View>, i: nat, log: seq<Telemetry>)
    requires i < |views| && LeastRecentFirst(views, log)
    ensures LeastRecentFirst(Without(views, i), log)
  {
    var r := Without(views, i);
    assert forall k :: 0 <= k < |r| ==> r[k] == views[if k < i then k else k + 1];
  }

  /** Evictions keep the order of the survivors. */
  lemma {:induction false} EvictKeepsRecency(views: seq<View>, metadata: nat, log: seq<Telemetry>)
    requires metadata <= VIEW_METADATA_BYTES && LeastRecentFirst(views, log)
    ensures LeastRecentFirst(Evict(views, metadata), log)
    decreases |views|
  {
    if MustEvict(views, metadata) {
      WithoutKeepsRecency(views, Victim(views), log);
      EvictKeepsRecency(Without(views, Victim(views)), metadata, log);
    }
  }

  /** Views of other terminals, in their old order, then the one the event is about. */
  lemma NewestIsSound(older: seq<View>, newest: View, log: seq<Telemetry>, e: Telemetry)
    requires LeastRecentFirst(older, log) && Names(e, newest.id)
    requires forall k :: 0 <= k < |older| ==>
               && !Names(e, older[k].id)
               && Tracks(older[k], Stream(log, older[k].id))
    requires Tracks(newest, Stream(log + [e], newest.id))
    requires WithinBudgets(older + [newest])
    ensures Sound(older + [newest], log + [e])
  {
    LogStep(log, e, newest.id);
    forall k | 0 <= k < |older|
      ensures Stream(log + [e], older[k].id) == Stream(log, older[k].id)
           && Touched(log + [e], older[k].id) == Touched(log, older[k].id) <= |log|
    {
      LogStep(log, e, older[k].id);
    }
  }

  lemma UnmovedIsSound(views: seq<View>, log: seq<Telemetry>, e: Telemetry)
    requires Sound(views, log)
    requires forall k :: 0 <= k < |views| ==> !Names(e, views[k].id)
    ensures Sound(views, log + [e])
  {
    forall k | 0 <= k < |views|
      ensures Stream(log + [e], views[k].id) == Stream(log, views[k].id)
           && Touched(log + [e], views[k].id) == Touched(log, views[k].id)
    {
      LogStep(log, e, views[k].id);
    }
  }

  lemma OpenedSound(views: seq<View>, log: seq<Telemetry>, e: Telemetry)
    requires Sound(views, log) && e.Opened? && !Cached(views, e.id)
    ensures Sound(Observe(views, e), log + [e])
  {
    var view := View(e.id, e.toolCall, e.command, e.cwd, [], 0, "running", None);
    if view.Metadata() <= VIEW_METADATA_BYTES {
      var kept := Evict(views, view.Metadata());
      EvictKeepsBudgets(views, view.Metadata());
      EvictKeepsRecency(views, view.Metadata(), log);
      OpenedKeepsBudgets(views, view);
      LogStep(log, e, e.id);
      forall k | 0 <= k < |kept| ensures kept[k].id != e.id && Tracks(kept[k], Stream(log, kept[k].id)) {
        assert kept[k] in views;
      }
      NewestIsSound(kept, view, log, e);
    } else {
      UnmovedIsSound(views, log, e);
    }
  }

  /** The views an output does not name, trimmed or not, still track their streams in their order. */
  lemma OthersStillTrack(views: seq<View>, i: nat, log: seq<Telemetry>, front: seq<View>)
    requires Sound(views, log) && i < |views| && AllTrimmed(Without(views, i), front)
    ensures LeastRecentFirst(front, log)
    ensures forall k :: 0 <= k < |front| ==> front[k].id != views[i].id && Tracks(front[k], Stream(log, front[k].id))
  {
    var older := Without(views, i);
    WithoutKeeps(views, i);
    WithoutKeepsRecency(views, i, log);
    forall k | 0 <= k < |front|
      ensures front[k].id == older[k].id && front[k].id != views[i].id && Tracks(front[k], Stream(log, front[k].id))
    {
      assert older[k] in views && Trimmed(older[k], front[k]);
      TrimmedTracks(older[k], front[k], Stream(log, older[k].id));
    }
  }

  lemma AppendTracks(v: View, data: seq<byte>, stream: seq<byte>)
    requires |v.output| <= VIEW_BYTES && Tracks(v, stream)
    ensures Tracks(Append(v, data), stream + data)
  {
    AppendCounts(v, data);
    assert (stream + data)[v.dropped..] == v.output + data;
  }

  lemma WrittenIsSound(views: seq<View>, i: nat, front: seq<View>, newest: View, log: seq<Telemetry>, e: Telemetry)
    requires Sound(views, log) && e.Output? && i < |views| && views[i].id == e.id == newest.id
    requires AllTrimmed(Without(views, i), front) && WithinBudgets(front + [newest])
    requires Tracks(newest, Stream(log, e.id) + e.data)
    ensures Sound(front + [newest], log + [e])
  {
    OthersStillTrack(views, i, log, front);
    LogStep(log, e, e.id);
    NewestIsSound(front, newest, log, e);
  }

  lemma OutputSound(views: seq<View>, log: seq<Telemetry>, e: Telemetry)
    requires Sound(views, log) && e.Output?
    ensures Sound(Observe(views, e), log + [e])
  {
    if Cached(views, e.id) {
      var i, front, newest := OutputShape(views, e.id, e.data);
      AppendTracks(views[i], e.data, Stream(log, e.id));
      WrittenIsSound(views, i, front, newest, log, e);
    } else {
      UnmovedIsSound(views, log, e);
    }
  }

  lemma ExitedSound(views: seq<View>, log: seq<Telemetry>, e: Telemetry)
    requires Sound(views, log) && e.Exited?
    ensures Sound(Observe(views, e), log + [e])
  {
    if Cached(views, e.id) {
      var i := Find(views, e.id);
      ObserveKeepsBudgets(views, e);
      WithoutKeeps(views, i);
      WithoutKeepsRecency(views, i, log);
      LogStep(log, e, e.id);
      assert Tracks(views[i], Stream(log, e.id));
      var newest := views[i].(exitCode := e.exitCode, status := e.status[..Min(64, |e.status|)]);
      forall k | 0 <= k < |Without(views, i)|
        ensures Tracks(Without(views, i)[k], Stream(log, Without(views, i)[k].id))
      {
        assert Without(views, i)[k] in views;
      }
      NewestIsSound(Without(views, i), newest, log, e);
    } else {
      UnmovedIsSound(views, log, e);
    }
  }

  /** After any log: budgets kept, every byte of every cached terminal accounted for, LRU order. */
  lemma {:induction false} CacheIsSound(log: seq<Telemetry>)
    requires FreshOpens(log)
    ensures Sound(Views(log), log)
  {
    if log != [] {
      var n := |log| - 1;
      var e := log[n];
      assert forall k :: 0 <= k < n ==> log[..n][..k] == log[..k];
      CacheIsSound(log[..n]);
      assert log == log[..n] + [e];
      ObserveSound(Views(log[..n]), log[..n], e);
    }
  }

  lemma ObserveSound(views: seq<View>, log: seq<Telemetry>, e: Telemetry)
    requires Sound(views, log)
    requires e.Opened? ==> !Cached(views, e.id)
    ensures Sound(Observe(views, e), log + [e])
  {
    match e
    case Opened(_, _, _, _) => OpenedSound(views, log, e);
    case Output(_, _) => OutputSound(views, log, e);
    case Exited(_, _, _) => ExitedSound(views, log, e);
    case FileTouched(_) => UnmovedIsSound(views, log, e);
  }

  // ---------------------------------------------------------------- the cache itself

  class TerminalViewCache {
    var views: seq<View>  // least recently updated first

    constructor ()
      ensures views == []
    {
      views := [];
    }

    method Position(id: TerminalId) returns (index: nat)
      ensures index == Find(views, id)
    {
      index := 0;
      while index < |views| && views[index].id != id
        invariant index <= |views|
        invariant Find(views, id) == index + Find(views[index..], id)
      {
        index := index + 1;
      }
    }

    method TakeAt(index: nat) returns (view: View)
      requires index < |views|
      modifies this
      ensures view == old(views)[index] && views == Without(old(views), index)
    {
      view := views[index];
      views := views[..index] + views[index + 1..];
    }

    method SumBytes() returns (total: nat)
      ensures total == TotalBytes(views)
    {
      total := 0;
      for i := 0 to |views|
        invariant TotalBytes(views) == total + TotalBytes(views[i..])
      {
        total := total + |views[i].output|;
      }
    }

    method SumMetadata() returns (total: nat)
      ensures total == TotalMetadata(views)
    {
      total := 0;
      for i := 0 to |views|
        invariant TotalMetadata(views) == total + TotalMetadata(views[i..])
      {
        total := total + views[i].Metadata();
      }
    }

    method FirstNotRunning() returns (index: nat)
      ensures index == FirstExited(views)
    {
      index := 0;
      while index < |views| && views[index].status == "running"
        invariant index <= |views|
        invariant FirstExited(views) == index + FirstExited(views[index..])
      {
        index := index + 1;
      }
    }

    method ObserveOpened(toolCall: seq<byte>, id: TerminalId, command: seq<byte>, cwd: seq<byte>)
      modifies this
      ensures views == Observe(old(views), Opened(toolCall, id, command, cwd))
    {
      var known := Position(id);
      if known < |views| {
        return;
      }
      var metadata := |id| + |toolCall| + |command| + |cwd|;
      if metadata > VIEW_METADATA_BYTES {
        return;
      }
      var sum := SumMetadata();
      while |views| == VIEW_COUNT || sum + metadata > TOTAL_METADATA_BYTES
        invariant sum == TotalMetadata(views)
        invariant Evict(views, metadata) == Evict(old(views), metadata)
        decreases |views|
      {
        var index := FirstNotRunning();
        if index == |views| {
          index := 0;
        }
        var gone := TakeAt(index);
        sum := SumMetadata();
      }
      views := views + [View(id, toolCall, command, cwd, [], 0, "running", None)];
    }

    method ObserveOutput(id: TerminalId, data: seq<byte>)
      modifies this
      ensures views == Observe(old(views), Output(id, data))
    {
      var index := Position(id);
      if index == |views| {
        return;
      }
      var view := TakeAt(index);
      // Trim before extending, so one oversized chunk stays within the terminal's budget.
      var incoming := Min(|data|, VIEW_BYTES);
      var remove := if |view.output| + incoming > VIEW_BYTES then |view.output| + incoming - VIEW_BYTES else 0;
      view := view.Trim(remove);
      view := view.(dropped := view.dropped + (|data| - incoming));
      view := view.(output := view.output + data[|data| - incoming..]);
      assert view == Append(old(views)[index], data);
      views := views + [view];
      TrimExcess();
    }

    /** The loop over the views, oldest first, that pays for the total byte budget. */
    method TrimExcess()
      modifies this
      ensures views == Settle(old(views))
    {
      var total := SumBytes();
      var excess: nat := if total > TOTAL_BYTES then total - TOTAL_BYTES else 0;
      TrimFromIsTrimOldest(views, 0, excess);
      ghost var owing := excess;
      var i := 0;
      while i < |views| && excess != 0
        invariant i <= |views|
        invariant TrimFrom(views, i, excess) == TrimFrom(old(views), 0, owing)
      {
        var cut := Min(excess, |views[i].output|);
        views := views[i := views[i].Trim(cut)];
        excess := excess - cut;
        i := i + 1;
      }
    }

    method ObserveExited(id: TerminalId, exitCode: Option<int>, status: string)
      modifies this
      ensures views == Observe(old(views), Exited(id, exitCode, status))
    {
      var index := Position(id);
      if index < |views| {
        var view := TakeAt(index);
        view := view.(exitCode := exitCode, status := status[..Min(64, |status|)]);
        views := views + [view];
      }
    }

    method ObserveEvent(e: Telemetry)
      modifies this
      ensures views == Observe(old(views), e)
    {
      match e
      case Opened(toolCall, id, command, cwd) => ObserveOpened(toolCall, id, command, cwd);
      case Output(id, data) => ObserveOutput(id, data);
      case Exited(id, exitCode, status) => ObserveExited(id, exitCode, status);
      case FileTouched(_) =>
    }
  }
}
