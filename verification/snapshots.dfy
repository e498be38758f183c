/** Polling monitors: each tick compares a snapshot with the previous one and emits the difference. */
module Snapshots {
  import opened Common

  // ---- processes ----

  datatype ProcEvent = Started(pid: nat) | Exited(pid: nat)

  /** Applying events to a set of pids; `None` once a start is for a present pid or an exit for an absent one. */
  function Replay(events: seq<ProcEvent>, pids: set<nat>): Option<set<nat>> {
    if events == [] then Some(pids)
    else match events[0]
      case Started(p) => if p in pids then None else Replay(events[1..], pids + {p})
      case Exited(p) => if p in pids then Replay(events[1..], pids - {p}) else None
  }

  lemma {:induction false} ReplayAppend(a: seq<ProcEvent>, b: seq<ProcEvent>, pids: set<nat>)
    ensures Replay(a + b, pids) == match Replay(a, pids)
                                   case None => None
                                   case Some(mid) => Replay(b, mid)
  {
    if a == [] {
      assert a + b == b;
    } else {
      assert (a + b)[1..] == a[1..] + b;
      match a[0]
      case Started(p) => if p !in pids { ReplayAppend(a[1..], b, pids + {p}); }
      case Exited(p) => if p in pids { ReplayAppend(a[1..], b, pids - {p}); }
    }
  }

  lemma ReplayOne(events: seq<ProcEvent>, e: ProcEvent, pids: set<nat>, mid: set<nat>)
    requires Replay(events, pids) == Some(mid)
    requires (e.Started? && e.pid !in mid) || (e.Exited? && e.pid in mid)
    ensures Replay(events + [e], pids) == Some(if e.Started? then mid + {e.pid} else mid - {e.pid})
  {
    ReplayAppend(events, [e], pids);
    assert [e][1..] == [];
  }

  /** The difference between two snapshots as events, in any order of its two halves. */
  ghost predicate IsTick(known: set<nat>, current: set<nat>, events: seq<ProcEvent>) {
    && Replay(events, known) == Some(current)
    && |events| == |current - known| + |known - current|
    && forall i, j :: 0 <= i < j < |events| && events[j].Started? ==> events[i].Started?
  }

  class ProcessPoller {
    var known: set<nat>

    constructor (seed: set<nat>)
      ensures known == seed
    {
      known := seed;
    }

    /** One tick of the /proc poller; the two set differences are visited in an arbitrary order. */
    method Tick(current: set<nat>) returns (events: seq<ProcEvent>)
      modifies this
      ensures known == current
      ensures IsTick(old(known), current, events)
    {
      events := StartsFor(current - known);
      assert known + (current - known) == known + current;
      var exits := ExitsFor(events, current);
      assert (known + current) - (known - current) == current;
      events := events + exits;
      known := current;
    }

    method StartsFor(arrived: set<nat>) returns (events: seq<ProcEvent>)
      requires arrived !! known
      ensures Replay(events, known) == Some(known + arrived) && |events| == |arrived|
      ensures forall i :: 0 <= i < |events| ==> events[i].Started?
    {
      hide Replay;
      events := [];
      var todo := arrived;
      NothingReplayed(known);
      assert known + (arrived - todo) == known;
      while todo != {}
        invariant todo <= arrived
        invariant Replay(events, known) == Some(known + (arrived - todo)) && |events| + |todo| == |arrived|
        invariant forall i :: 0 <= i < |events| ==> events[i].Started?
        decreases todo
      {
        var pid :| pid in todo;
        ReplayOne(events, Started(pid), known, known + (arrived - todo));
        MovedOver(known, arrived, todo, pid);
        events := events + [Started(pid)];
        todo := todo - {pid};
      }
      assert arrived - todo == arrived;
    }

    method ExitsFor(ghost starts: seq<ProcEvent>, current: set<nat>) returns (exits: seq<ProcEvent>)
      requires Replay(starts, known) == Some(known + current)
      ensures Replay(starts + exits, known) == Some((known + current) - (known - current))
          && |exits| == |known - current|
      ensures forall i :: 0 <= i < |exits| ==> exits[i].Exited?
    {
      exits := [];
      var gone := known - current;
      var todo := gone;
      assert starts + exits == starts;
      assert (known + current) - (gone - todo) == known + current;
      while todo != {}
        invariant todo <= gone
        invariant Replay(starts + exits, known) == Some((known + current) - (gone - todo)) && |exits| + |todo| == |gone|
        invariant forall i :: 0 <= i < |exits| ==> exits[i].Exited?
        decreases todo
      {
        var pid :| pid in todo;
        ReplayOne(starts + exits, Exited(pid), known, (known + current) - (gone - todo));
        assert (known + current) - (gone - todo) - {pid} == (known + current) - (gone - (todo - {pid}));
        assert starts + (exits + [Exited(pid)]) == starts + exits + [Exited(pid)];
        exits := exits + [Exited(pid)];
        todo := todo - {pid};
      }
      assert gone - todo == gone;
    }

    /** One tick of the sysinfo poller: a list of processes, one per pid, scanned in order. */
    method TickList(pids: seq<nat>) returns (events: seq<ProcEvent>)
      requires forall i, j :: 0 <= i < j < |pids| ==> pids[i] != pids[j]
      modifies this
      ensures known == Upto(pids, |pids|)
      ensures IsTick(old(known), Upto(pids, |pids|), events)
    {
      events := StartsIn(pids);
      var current := Upto(pids, |pids|);
      var exits := ExitsFor(events, current);
      assert (known + current) - (known - current) == current;
      events := events + exits;
      known := current;
    }

    method StartsIn(pids: seq<nat>) returns (events: seq<ProcEvent>)
      requires forall i, j :: 0 <= i < j < |pids| ==> pids[i] != pids[j]
      ensures Replay(events, known) == Some(known + Upto(pids, |pids|)) && |events| == |Upto(pids, |pids|) - known|
      ensures forall i :: 0 <= i < |events| ==> events[i].Started?
    {
      hide Replay, Upto;
      events := [];
      var k := 0;
      NothingYet(pids, known);
      while k < |pids|
        invariant 0 <= k <= |pids|
        invariant Replay(events, known) == Some(known + Upto(pids, k))
        invariant |events| == |Upto(pids, k) - known|
        invariant forall i :: 0 <= i < |events| ==> events[i].Started?
      {
        var pid := pids[k];
        ghost var before := Upto(pids, k);
        UptoStep(pids, k);
        OneMoreSeen(known, before, pid);
        if pid !in known {
          ReplayOne(events, Started(pid), known, known + before);
          events := events + [Started(pid)];
        }
        k := k + 1;
      }
    }
  }

  lemma NothingReplayed(known: set<nat>)
    ensures Replay([], known) == Some(known)
  {}

  lemma MovedOver(known: set<nat>, arrived: set<nat>, todo: set<nat>, pid: nat)
    requires pid in todo && todo <= arrived
    ensures known + (arrived - todo) + {pid} == known + (arrived - (todo - {pid}))
    ensures arrived !! known ==> pid !in known + (arrived - todo)
    ensures |todo - {pid}| == |todo| - 1
  {}

  lemma OneMoreSeen(known: set<nat>, before: set<nat>, pid: nat)
    requires pid !in before
    ensures known + (before + {pid}) == if pid in known then known + before else known + before + {pid}
    ensures (before + {pid}) - known == if pid in known then before - known else (before - known) + {pid}
    ensures |(before + {pid}) - known| == |before - known| + if pid in known then 0 else 1
  {
    assert pid in known ==> (before + {pid}) - known == before - known;
    assert pid !in known ==> (before + {pid}) - known == (before - known) + {pid};
  }

  function Upto(pids: seq<nat>, k: nat): set<nat>
    requires k <= |pids|
  {
    set p | p in pids[..k]
  }

  lemma UptoStep(pids: seq<nat>, k: nat)
    requires k < |pids| && forall i, j :: 0 <= i < j < |pids| ==> pids[i] != pids[j]
    ensures Upto(pids, k + 1) == Upto(pids, k) + {pids[k]} && pids[k] !in Upto(pids, k)
  {}

  lemma NothingYet(pids: seq<nat>, known: set<nat>)
    ensures Replay([], known) == Some(known) && Upto(pids, 0) == {} && known + Upto(pids, 0) == known
  {}

  function Flatten<T>(batches: seq<seq<T>>): seq<T> {
    if batches == [] then [] else batches[0] + Flatten(batches[1..])
  }

  /** The batches of a whole run of ticks over a list of snapshots. */
  ghost predicate IsRun(seed: set<nat>, snapshots: seq<set<nat>>, batches: seq<seq<ProcEvent>>)
    decreases |snapshots|
  {
    && |batches| == |snapshots|
    && (snapshots != [] ==> IsTick(seed, snapshots[0], batches[0]) && IsRun(snapshots[0], snapshots[1..], batches[1..]))
  }

  /** Over every run, replaying all emitted events on the seed gives the latest snapshot. */
  lemma {:induction false} RunReplaysToLatest(seed: set<nat>, snapshots: seq<set<nat>>, batches: seq<seq<ProcEvent>>)
    requires IsRun(seed, snapshots, batches)
    ensures Replay(Flatten(batches), seed) == Some(if snapshots == [] then seed else snapshots[|snapshots| - 1])
    decreases |snapshots|
  {
    if snapshots != [] {
      RunReplaysToLatest(snapshots[0], snapshots[1..], batches[1..]);
      ReplayAppend(batches[0], Flatten(batches[1..]), seed);
    }
  }

  lemma {:induction false} ReplayTouches(events: seq<ProcEvent>, pids: set<nat>, p: nat)
    requires Replay(events, pids).Some?
    ensures (p in pids) != (p in Replay(events, pids).value) ==> (if p in pids then Exited(p) else Started(p)) in events
  {
    if events != [] {
      var e := events[0];
      var next := if e.Started? then pids + {e.pid} else pids - {e.pid};
      ReplayTouches(events[1..], next, p);
      assert events == [e] + events[1..];
    }
  }

  /** A tick mentions each pid that came or went exactly once, and no other. */
  lemma TickIsDifference(known: set<nat>, current: set<nat>, events: seq<ProcEvent>)
    requires IsTick(known, current, events)
    ensures forall p :: multiset(events)[Started(p)] == if p in current - known then 1 else 0
    ensures forall p :: multiset(events)[Exited(p)] == if p in known - current then 1 else 0
  {
    var wanted: set<ProcEvent> :=
      (set p | p in current - known :: Started(p)) + (set p | p in known - current :: Exited(p));
    forall e | e in wanted
      ensures e in events
    {
      ReplayTouches(events, known, e.pid);
    }
    WantedSize(current - known, known - current);
    ExactlyOnce(events, wanted);
  }

  lemma WantedSize(a: set<nat>, b: set<nat>)
    ensures |(set p | p in a :: Started(p)) + (set p | p in b :: Exited(p))| == |a| + |b|
  {
    StartedSize(a);
    ExitedSize(b);
  }

  lemma {:induction false} StartedSize(a: set<nat>)
    ensures |set p | p in a :: Started(p)| == |a|
  {
    if a != {} {
      var x :| x in a;
      StartedSize(a - {x});
      assert (set p | p in a :: Started(p)) == (set p | p in a - {x} :: Started(p)) + {Started(x)};
    }
  }

  lemma {:induction false} ExitedSize(a: set<nat>)
    ensures |set p | p in a :: Exited(p)| == |a|
  {
    if a != {} {
      var x :| x in a;
      ExitedSize(a - {x});
      assert (set p | p in a :: Exited(p)) == (set p | p in a - {x} :: Exited(p)) + {Exited(x)};
    }
  }

  /** A list no longer than a set it covers holds each member once and nothing else. */
  lemma {:induction false} ExactlyOnce<T>(s: seq<T>, wanted: set<T>)
    requires |s| == |wanted| && forall x :: x in wanted ==> x in s
    ensures forall x :: multiset(s)[x] == if x in wanted then 1 else 0
  {
    var m := multiset(s);
    assert multiset(wanted) <= m;
    assert |m - multiset(wanted)| == 0;
    assert m == multiset(wanted) + (m - multiset(wanted));
  }

  // ---- files ----

  type Path = seq<string>

  datatype Meta = Meta(mtime: nat, len: nat)

  datatype Operation = Create | Write | Delete

  datatype FileEvent = FileEvent(path: Path, operation: Operation)

  function ReplayFiles(events: seq<FileEvent>, paths: set<Path>): Option<set<Path>> {
    if events == [] then Some(paths)
    else match events[0].operation
      case Create => if events[0].path in paths then None else ReplayFiles(events[1..], paths + {events[0].path})
      case Write => if events[0].path in paths then ReplayFiles(events[1..], paths) else None
      case Delete => if events[0].path in paths then ReplayFiles(events[1..], paths - {events[0].path}) else None
  }

  lemma {:induction false} ReplayFilesOne(events: seq<FileEvent>, e: FileEvent, paths: set<Path>, mid: set<Path>)
    requires ReplayFiles(events, paths) == Some(mid)
    requires e.operation == Create <==> e.path !in mid
    ensures ReplayFiles(events + [e], paths)
              == Some(if e.operation == Create then mid + {e.path} else if e.operation == Delete then mid - {e.path}
                else mid)
  {
    if events == [] {
      assert events + [e] == [e] && [e][1..] == [];
    } else {
      assert (events + [e])[1..] == events[1..] + [e];
      match events[0].operation
      case Create => ReplayFilesOne(events[1..], e, paths + {events[0].path}, mid);
      case Write => ReplayFilesOne(events[1..], e, paths, mid);
      case Delete => ReplayFilesOne(events[1..], e, paths - {events[0].path}, mid);
    }
  }

  /** What changed about a path between two scans. */
  predicate Changed(known: map<Path, Meta>, current: map<Path, Meta>, e: FileEvent) {
    match e.operation
    case Create => e.path in current && e.path !in known
    case Write => e.path in current && e.path in known && known[e.path] != current[e.path]
    case Delete => e.path in known && e.path !in current
  }

  class FilePoller {
    var known: map<Path, Meta>

    constructor ()
      ensures known == map[]
    {
      known := map[];
    }

    /** One tick of `poll_files` on a finished scan; both maps are visited in an arbitrary order. */
    method Tick(current: map<Path, Meta>) returns (events: seq<FileEvent>)
      modifies this
      ensures known == current
      ensures IsFileTick(old(known), current, events)
    {
      events := Arrivals(current);
      events := Departures(events, current);
      known := current;
    }

    method Arrivals(current: map<Path, Meta>) returns (events: seq<FileEvent>)
      ensures ReplayFiles(events, known.Keys) == Some(known.Keys + current.Keys)
      ensures forall e :: multiset(events)[e] == if Changed(known, current, e) && e.path in current then 1 else 0
    {
      hide ReplayFiles;
      events := [];
      var seen: set<Path> := {};
      var todo := current.Keys;
      NoFileEvents(known.Keys);
      while todo != {}
        invariant todo <= current.Keys && seen == current.Keys - todo
        invariant ReplayFiles(events, known.Keys) == Some(known.Keys + seen)
        invariant forall e :: multiset(events)[e] == if Changed(known, current, e) && e.path in seen then 1 else 0
        decreases todo
      {
        var path :| path in todo;
        ghost var mid := known.Keys + seen;
        if path !in known {
          ReplayFilesOne(events, FileEvent(path, Create), known.Keys, mid);
          events := events + [FileEvent(path, Create)];
        } else if known[path] != current[path] {
          ReplayFilesOne(events, FileEvent(path, Write), known.Keys, mid);
          events := events + [FileEvent(path, Write)];
        }
        todo := todo - {path};
        seen := seen + {path};
        assert known.Keys + seen == if path in known then mid else mid + {path};
      }
      assert seen == current.Keys;
    }

    method Departures(arrivals: seq<FileEvent>, current: map<Path, Meta>) returns (events: seq<FileEvent>)
      requires ReplayFiles(arrivals, known.Keys) == Some(known.Keys + current.Keys)
      requires forall e :: multiset(arrivals)[e] == if Changed(known, current, e) && e.path in current then 1 else 0
      ensures ReplayFiles(events, known.Keys) == Some(current.Keys)
      ensures forall e :: multiset(events)[e] == if Changed(known, current, e) then 1 else 0
    {
      hide ReplayFiles;
      events := arrivals;
      var gone: set<Path> := {};
      var todo := known.Keys;
      assert known.Keys + current.Keys - (gone - current.Keys) == known.Keys + current.Keys;
      while todo != {}
        invariant todo <= known.Keys && gone == known.Keys - todo
        invariant ReplayFiles(events, known.Keys) == Some(known.Keys + current.Keys - (gone - current.Keys))
        invariant forall e ::
          multiset(events)[e]
          == if Changed(known, current, e) && (e.path in current || e.path in gone) then 1 else 0
        decreases todo
      {
        var path :| path in todo;
        ghost var mid := known.Keys + current.Keys - (gone - current.Keys);
        assert path in mid;
        if path !in current {
          ReplayFilesOne(events, FileEvent(path, Delete), known.Keys, mid);
          events := events + [FileEvent(path, Delete)];
        }
        assert known.Keys + current.Keys - (gone + {path} - current.Keys)
            == if path in current then mid else mid - {path};
        todo := todo - {path};
        gone := gone + {path};
      }
      assert gone == known.Keys;
      assert known.Keys + current.Keys - (gone - current.Keys) == current.Keys;
    }
  }

  lemma NoFileEvents(paths: set<Path>)
    ensures ReplayFiles([], paths) == Some(paths) && paths + {} == paths
  {}

  lemma {:induction false} ReplayFilesAppend(a: seq<FileEvent>, b: seq<FileEvent>, paths: set<Path>)
    requires ReplayFiles(a, paths).Some?
    ensures ReplayFiles(a + b, paths) == ReplayFiles(b, ReplayFiles(a, paths).value)
  {
    if a == [] {
      assert a + b == b;
    } else {
      assert (a + b)[1..] == a[1..] + b;
      var e := a[0];
      var next :=
        if e.operation == Create then paths + {e.path} else if e.operation == Delete then paths - {e.path} else paths;
      ReplayFilesAppend(a[1..], b, next);
    }
  }

  /** What one file tick promises about two scans in a row. */
  ghost predicate IsFileTick(known: map<Path, Meta>, current: map<Path, Meta>, events: seq<FileEvent>) {
    && ReplayFiles(events, known.Keys) == Some(current.Keys)
    && forall e :: multiset(events)[e] == if Changed(known, current, e) then 1 else 0
  }

  ghost predicate IsFileRun(known: map<Path, Meta>, scans: seq<map<Path, Meta>>, batches: seq<seq<FileEvent>>)
    decreases |scans|
  {
    && |batches| == |scans|
    && (scans != [] ==> IsFileTick(known, scans[0], batches[0]) && IsFileRun(scans[0], scans[1..], batches[1..]))
  }

  /** Over every run of scans, replaying all events gives the keys of the latest scan. */
  lemma {:induction false} FilesReplayToLatest(known: map<Path, Meta>, scans: seq<map<Path, Meta>>,
      batches: seq<seq<FileEvent>>)
    requires IsFileRun(known, scans, batches)
    ensures ReplayFiles(Flatten(batches), known.Keys)
        == Some(if scans == [] then known.Keys else scans[|scans| - 1].Keys)
    decreases |scans|
  {
    if scans != [] {
      hide ReplayFiles;
      FilesReplayToLatest(scans[0], scans[1..], batches[1..]);
      ReplayFilesAppend(batches[0], Flatten(batches[1..]), known.Keys);
    } else {
      assert Flatten(batches) == [];
    }
  }
}
