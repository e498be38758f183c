/** The depth- and size-capped directory walk of the file monitors. */
module Walk {
  import opened Snapshots

  const MAX_FILES_PER_SCAN := 5000

  const MAX_DEPTH := 6

  /** `path.is_dir()` follows links, so a directory entry names a node and graphs may be cyclic. */
  datatype Kind = File(meta: Meta) | Dir(node: nat) | Unreadable

  datatype Entry = Entry(name: string, kind: Kind)

  /** Readable directories and their entries; reading any other node fails. */
  type Graph = map<nat, seq<Entry>>

  /** A watched root: its path as configured, component by component, and the directory it names. Roots may
      overlap; a file under two of them has one key. */
  datatype Root = Root(path: Path, node: nat)

  /** The directory names skipped on macOS; elsewhere none are. */
  function AppleSkips(): set<string> { {"System", "Library", ".DocumentRevisions-V100", ".Spotlight-V100", ".Trashes"} }

  // ---- which files a directory holds ----

  /** Following `names` from a directory, never into a skipped one, ends at a file. */
  ghost predicate FileAt(g: Graph, skips: set<string>, dir: nat, names: Path, meta: Meta)
    decreases |names|
  {
    names != [] && dir in g && exists e :: e in g[dir] && e.name == names[0] && Through(g, skips, e, names[1..], meta)
  }

  ghost predicate Through(g: Graph, skips: set<string>, e: Entry, rest: Path, meta: Meta)
    decreases |rest|, 0
  {
    match e.kind
    case File(m) => rest == [] && m == meta
    case Dir(n) =>
      && rest != [] && e.name !in skips
      && exists x :: n in g && x in g[n] && x.name == rest[0] && Through(g, skips, x, rest[1..], meta)
    case Unreadable => false
  }

  lemma ThroughDir(g: Graph, skips: set<string>, e: Entry, rest: Path, meta: Meta)
    requires e.kind.Dir?
    ensures Through(g, skips, e, rest, meta) <==> e.name !in skips && FileAt(g, skips, e.kind.node, rest, meta)
  {}

  /** `p` is a file of the graph at most `limit` names below `base`. */
  ghost predicate Below(g: Graph, skips: set<string>, dir: nat, base: Path, limit: nat, p: Path, meta: Meta) {
    |base| <= |p| <= |base| + limit && p[..|base|] == base && FileAt(g, skips, dir, p[|base|..], meta)
  }

  /** As `Below`, for what one entry of a directory leads to. */
  ghost predicate BelowOne(g: Graph, skips: set<string>, e: Entry, base: Path, limit: nat, p: Path, meta: Meta) {
    && |base| < |p| <= |base| + limit && p[..|base|] == base
    && e.name == p[|base|] && Through(g, skips, e, p[|base| + 1..], meta)
  }

  /** As `Below`, for what the first `n` entries lead to. */
  ghost predicate BelowSome(g: Graph, skips: set<string>, entries: seq<Entry>, n: nat, base: Path, limit: nat, p: Path,
      meta: Meta)
  {
    exists i :: 0 <= i < n && i < |entries| && BelowOne(g, skips, entries[i], base, limit, p, meta)
  }

  lemma BelowNext(g: Graph, skips: set<string>, entries: seq<Entry>, n: nat, base: Path, limit: nat, p: Path,
      meta: Meta)
    requires n < |entries|
    ensures BelowSome(g, skips, entries, n + 1, base, limit, p, meta)
      <==> BelowSome(g, skips, entries, n, base, limit, p, meta) || BelowOne(g, skips, entries[n], base, limit, p, meta)
  {
    hide BelowOne;
    if BelowSome(g, skips, entries, n + 1, base, limit, p, meta) {
      var i :| 0 <= i < n + 1 && i < |entries| && BelowOne(g, skips, entries[i], base, limit, p, meta);
      assert i == n || 0 <= i < n;
    }
  }

  lemma BelowAll(g: Graph, skips: set<string>, dir: nat, base: Path, limit: nat, p: Path, meta: Meta)
    requires dir in g
    ensures Below(g, skips, dir, base, limit, p, meta) <==> BelowSome(g, skips, g[dir], |g[dir]|, base, limit, p, meta)
  {
    if |base| < |p| {
      assert p[|base|..][0] == p[|base|] && p[|base|..][1..] == p[|base| + 1..];
    }
  }

  /** One more entry that is a directory: what lies below it under its own name. */
  lemma BelowSubdirectory(g: Graph, skips: set<string>, e: Entry, base: Path, limit: nat, p: Path, meta: Meta)
    requires e.kind.Dir? && e.name !in skips && limit > 0
    ensures Below(g, skips, e.kind.node, base + [e.name], limit - 1, p, meta)
        <==> BelowOne(g, skips, e, base, limit, p, meta)
  {
    if |base| < |p| {
      ThroughDir(g, skips, e, p[|base| + 1..], meta);
      assert p[..|base| + 1] == p[..|base|] + [p[|base|]];
    }
  }

  // ---- what a walk may have done to the map ----

  /** Every entry of `after` is an old one or a scanned file; old keys are kept. */
  ghost predicate OnlyScanned(before: map<Path, Meta>, after: map<Path, Meta>, g: Graph, skips: set<string>,
      entries: seq<Entry>, n: nat, base: Path, limit: nat)
  {
    && before.Keys <= after.Keys
    && forall p :: p in after ==>
         (p in before && after[p] == before[p]) || BelowSome(g, skips, entries, n, base, limit, p, after[p])
  }

  ghost predicate AllScanned(after: map<Path, Meta>, g: Graph, skips: set<string>, entries: seq<Entry>, n: nat,
      base: Path, limit: nat)
  {
    forall p, meta :: BelowSome(g, skips, entries, n, base, limit, p, meta) ==> p in after
  }

  lemma FileStep(before: map<Path, Meta>, out: map<Path, Meta>, g: Graph, skips: set<string>, entries: seq<Entry>,
      n: nat, base: Path, limit: nat)
    requires n < |entries| && entries[n].kind.File? && limit > 0
    requires OnlyScanned(before, out, g, skips, entries, n, base, limit)
    ensures var out' := out[base + [entries[n].name] := entries[n].kind.meta];
      && OnlyScanned(before, out', g, skips, entries, n + 1, base, limit)
      && (AllScanned(out, g, skips, entries, n, base, limit)
        ==> AllScanned(out', g, skips, entries, n + 1, base, limit))
  {
    var e := entries[n];
    var key := base + [e.name];
    var out' := out[key := e.kind.meta];
    assert key[|base| + 1..] == [] && key[..|base|] == base;
    assert BelowOne(g, skips, e, base, limit, key, e.kind.meta);
    var m := n + 1;
    forall p, meta
      ensures BelowSome(g, skips, entries, m, base, limit, p, meta)
        <==> BelowSome(g, skips, entries, n, base, limit, p, meta) || BelowOne(g, skips, e, base, limit, p, meta)
      ensures BelowOne(g, skips, e, base, limit, p, meta) ==> p == key
    {
      BelowNext(g, skips, entries, n, base, limit, p, meta);
      if BelowOne(g, skips, e, base, limit, p, meta) {
        assert p == p[..|base|] + [p[|base|]] + p[|base| + 1..];
      }
    }
    hide BelowOne, BelowSome;
  }

  lemma IdleStep(before: map<Path, Meta>, out: map<Path, Meta>, g: Graph, skips: set<string>, entries: seq<Entry>,
      n: nat, base: Path, limit: nat)
    requires n < |entries| && (entries[n].kind.Unreadable? || (entries[n].kind.Dir? && entries[n].name in skips))
    requires OnlyScanned(before, out, g, skips, entries, n, base, limit)
    ensures OnlyScanned(before, out, g, skips, entries, n + 1, base, limit)
    ensures AllScanned(out, g, skips, entries, n, base, limit)
        ==> AllScanned(out, g, skips, entries, n + 1, base, limit)
  {
    var m := n + 1;
    forall p, meta
      ensures BelowSome(g, skips, entries, m, base, limit, p, meta)
          <==> BelowSome(g, skips, entries, n, base, limit, p, meta)
    {
      BelowNext(g, skips, entries, n, base, limit, p, meta);
      assert !BelowOne(g, skips, entries[n], base, limit, p, meta);
    }
    hide BelowOne, BelowSome;
  }

  /** The contract of one walk. */
  ghost predicate Walked(before: map<Path, Meta>, after: map<Path, Meta>, g: Graph, skips: set<string>, dir: nat,
      base: Path, limit: nat)
  {
    && before.Keys <= after.Keys
    && |after| <= MAX_FILES_PER_SCAN
    && (forall p :: p in after ==>
          (p in before && after[p] == before[p]) || Below(g, skips, dir, base, limit, p, after[p]))
    && (|after| < MAX_FILES_PER_SCAN ==> forall p, meta :: Below(g, skips, dir, base, limit, p, meta) ==> p in after)
  }

  lemma DirStep(before: map<Path, Meta>, out: map<Path, Meta>, out': map<Path, Meta>, g: Graph, skips: set<string>,
      entries: seq<Entry>, n: nat, base: Path, limit: nat)
    requires n < |entries| && entries[n].kind.Dir? && entries[n].name !in skips && limit > 0
    requires OnlyScanned(before, out, g, skips, entries, n, base, limit)
    requires Walked(out, out', g, skips, entries[n].kind.node, base + [entries[n].name], limit - 1)
    ensures OnlyScanned(before, out', g, skips, entries, n + 1, base, limit)
    ensures AllScanned(out, g, skips, entries, n, base, limit) && |out'| < MAX_FILES_PER_SCAN ==>
              AllScanned(out', g, skips, entries, n + 1, base, limit)
  {
    hide FileAt, Through, Below, BelowSome, BelowOne;
    var e := entries[n];
    var m := n + 1;
    forall p, meta
      ensures BelowSome(g, skips, entries, m, base, limit, p, meta)
        <==> (BelowSome(g, skips, entries, n, base, limit, p, meta)
              || Below(g, skips, e.kind.node, base + [e.name], limit - 1, p, meta))
    {
      BelowNext(g, skips, entries, n, base, limit, p, meta);
      BelowSubdirectory(g, skips, e, base, limit, p, meta);
    }
  }

  class Scan {
    const graph: Graph
    const skips: set<string>
    var out: map<Path, Meta>

    constructor (graph: Graph, skips: set<string>)
      ensures this.graph == graph && this.skips == skips && out == map[]
    {
      this.graph, this.skips, out := graph, skips, map[];
    }

    /** `walk_dir`: stops by depth on any graph, and by size at the cap. When it ends below the cap
        the map holds its prior keys and every file within the depth limit. */
    method WalkDir(dir: nat, base: Path, depth: nat)
      requires depth <= MAX_DEPTH + 1 && |out| <= MAX_FILES_PER_SCAN
      modifies this`out
      ensures Walked(old(out), out, graph, skips, dir, base, MAX_DEPTH + 1 - depth)
      decreases MAX_DEPTH + 1 - depth
    {
      hide FileAt, Through;
      if depth > MAX_DEPTH || |out| >= MAX_FILES_PER_SCAN {
        NothingBelow(graph, skips, dir, base);
        return;
      }
      if dir !in graph {
        NothingUnreadable(graph, skips, dir);
        return;
      }
      hide Below, BelowSome, OnlyScanned, AllScanned, Walked;
      ghost var limit := MAX_DEPTH + 1 - depth;
      var entries := graph[dir];
      var k := 0;
      NothingScanned(out, graph, skips, entries, base, limit);
      while k < |entries|
        invariant 0 <= k <= |entries| && |out| < MAX_FILES_PER_SCAN
        invariant OnlyScanned(old(out), out, graph, skips, entries, k, base, limit)
        invariant AllScanned(out, graph, skips, entries, k, base, limit)
      {
        var entry := entries[k];
        ghost var before := out;
        match entry.kind {
          case Dir(node) =>
            if entry.name in skips {
              IdleStep(old(out), out, graph, skips, entries, k, base, limit);
            } else {
              WalkDir(node, base + [entry.name], depth + 1);
              WalkedBounds(before, out, graph, skips, node, base + [entry.name], limit - 1);
              DirStep(old(out), before, out, graph, skips, entries, k, base, limit);
            }
          case File(meta) =>
            FileStep(old(out), out, graph, skips, entries, k, base, limit);
            out := out[base + [entry.name] := meta];
          case Unreadable =>
            IdleStep(old(out), out, graph, skips, entries, k, base, limit);
        }
        k := k + 1;
        if |out| >= MAX_FILES_PER_SCAN {
          FinishAtCap(old(out), out, graph, skips, dir, k, base, limit);
          return;
        }
      }
      FinishScan(old(out), out, graph, skips, dir, base, limit);
    }

    /** The root loop of `poll_files`. */
    method ScanRoots(roots: seq<Root>)
      requires out == map[]
      modifies this`out
      ensures |out| <= 5000
      ensures forall p :: p in out ==> UnderRoots(graph, skips, roots, |roots|, p, out[p])
      ensures |out| < 5000 ==> AllUnder(graph, skips, roots, |roots|, out)
    {
      hide FileAt, Through, Below, Walked;
      var k := 0;
      while k < |roots|
        invariant 0 <= k <= |roots| && |out| <= MAX_FILES_PER_SCAN
        invariant forall p :: p in out ==> UnderRoots(graph, skips, roots, k, p, out[p])
        invariant |out| < MAX_FILES_PER_SCAN ==> AllUnder(graph, skips, roots, k, out)
      {
        ghost var before := out;
        WalkDir(roots[k].node, roots[k].path, 0);
        RootStep(before, out, graph, skips, roots, k);
        k := k + 1;
        if |out| >= MAX_FILES_PER_SCAN {
          break;
        }
      }
      forall p | p in out
        ensures UnderRoots(graph, skips, roots, |roots|, p, out[p])
      {
        var i :| 0 <= i < k && i < |roots|
          && Below(graph, skips, roots[i].node, roots[i].path, MAX_DEPTH + 1, p, out[p]);
      }
    }
  }

  /** A file at most seven names below one of the first `n` roots. */
  ghost predicate UnderRoots(g: Graph, skips: set<string>, roots: seq<Root>, n: nat, p: Path, meta: Meta) {
    exists i :: 0 <= i < n && i < |roots| && Below(g, skips, roots[i].node, roots[i].path, 7, p, meta)
  }

  ghost predicate AllUnder(g: Graph, skips: set<string>, roots: seq<Root>, n: nat, out: map<Path, Meta>) {
    forall p, meta :: UnderRoots(g, skips, roots, n, p, meta) ==> p in out
  }

  /** One round of `poll_files`: scan the roots, then report the difference to the last scan. */
  method PollFiles(poller: FilePoller, graph: Graph, apple: bool, roots: seq<Root>) returns (events: seq<FileEvent>)
    modifies poller
    ensures var skips :=
        if apple then {"System", "Library", ".DocumentRevisions-V100", ".Spotlight-V100", ".Trashes"} else {};
      && IsFileTick(old(poller.known), poller.known, events)
      && |poller.known| <= 5000
      && (forall p :: p in poller.known ==> UnderRoots(graph, skips, roots, |roots|, p, poller.known[p]))
      && (|poller.known| < 5000 ==> AllUnder(graph, skips, roots, |roots|, poller.known))
  {
    hide UnderRoots, IsFileTick;
    var scan := new Scan(graph, if apple then AppleSkips() else {});
    scan.ScanRoots(roots);
    events := poller.Tick(scan.out);
  }

  // ---- steps of the two loops ----

  lemma NothingBelow(g: Graph, skips: set<string>, dir: nat, base: Path)
    ensures forall p, meta :: !Below(g, skips, dir, base, 0, p, meta)
  {
    forall p, meta
      ensures !Below(g, skips, dir, base, 0, p, meta)
    {
      if |p| == |base| {
        assert p[|base|..] == [];
      }
    }
  }

  lemma NothingUnreadable(g: Graph, skips: set<string>, dir: nat)
    requires dir !in g
    ensures forall names, meta :: !FileAt(g, skips, dir, names, meta)
  {}

  lemma NothingScanned(out: map<Path, Meta>, g: Graph, skips: set<string>, entries: seq<Entry>, base: Path, limit: nat)
    ensures OnlyScanned(out, out, g, skips, entries, 0, base, limit)
    ensures AllScanned(out, g, skips, entries, 0, base, limit)
  {}

  lemma WalkedBounds(before: map<Path, Meta>, after: map<Path, Meta>, g: Graph, skips: set<string>, dir: nat,
      base: Path, limit: nat)
    requires Walked(before, after, g, skips, dir, base, limit)
    ensures |after| <= MAX_FILES_PER_SCAN
  {}

  lemma FinishAtCap(before: map<Path, Meta>, out: map<Path, Meta>, g: Graph, skips: set<string>, dir: nat, k: nat,
      base: Path, limit: nat)
    requires dir in g && k <= |g[dir]| && |out| == MAX_FILES_PER_SCAN
    requires OnlyScanned(before, out, g, skips, g[dir], k, base, limit)
    ensures Walked(before, out, g, skips, dir, base, limit)
  {
    hide FileAt, Through;
    forall p | p in out && BelowSome(g, skips, g[dir], k, base, limit, p, out[p])
      ensures Below(g, skips, dir, base, limit, p, out[p])
    {
      BelowAll(g, skips, dir, base, limit, p, out[p]);
    }
  }

  lemma FinishScan(before: map<Path, Meta>, out: map<Path, Meta>, g: Graph, skips: set<string>, dir: nat, base: Path,
      limit: nat)
    requires dir in g && |out| < MAX_FILES_PER_SCAN
    requires OnlyScanned(before, out, g, skips, g[dir], |g[dir]|, base, limit)
    requires AllScanned(out, g, skips, g[dir], |g[dir]|, base, limit)
    ensures Walked(before, out, g, skips, dir, base, limit)
  {
    hide FileAt, Through, Below, BelowSome;
    forall p, meta
      ensures Below(g, skips, dir, base, limit, p, meta)
          <==> BelowSome(g, skips, g[dir], |g[dir]|, base, limit, p, meta)
    {
      BelowAll(g, skips, dir, base, limit, p, meta);
    }
  }

  lemma RootStep(before: map<Path, Meta>, out: map<Path, Meta>, g: Graph, skips: set<string>, roots: seq<Root>, k: nat)
    requires k < |roots| && Walked(before, out, g, skips, roots[k].node, roots[k].path, MAX_DEPTH + 1)
    requires forall p :: p in before ==> UnderRoots(g, skips, roots, k, p, before[p])
    requires |before| < MAX_FILES_PER_SCAN ==> AllUnder(g, skips, roots, k, before)
    ensures |out| <= MAX_FILES_PER_SCAN
    ensures forall p :: p in out ==> UnderRoots(g, skips, roots, k + 1, p, out[p])
    ensures |out| < MAX_FILES_PER_SCAN ==> AllUnder(g, skips, roots, k + 1, out)
  {
    hide Below;
    assert before.Keys <= out.Keys;
    KeysGrow(before, out);
    forall p | p in out
      ensures UnderRoots(g, skips, roots, k + 1, p, out[p])
    {
      if p in before && out[p] == before[p] {
        var i :| 0 <= i < k && Below(g, skips, roots[i].node, roots[i].path, MAX_DEPTH + 1, p, before[p]);
        assert 0 <= i < k + 1;
      }
    }
    var m := k + 1;
    forall p, meta | UnderRoots(g, skips, roots, m, p, meta) && |out| < MAX_FILES_PER_SCAN
      ensures p in out
    {
      var i :| 0 <= i < m && i < |roots| && Below(g, skips, roots[i].node, roots[i].path, MAX_DEPTH + 1, p, meta);
      if i < k {
        assert UnderRoots(g, skips, roots, k, p, meta);
      }
    }
  }

  lemma {:induction false} KeysGrow(before: map<Path, Meta>, out: map<Path, Meta>)
    requires before.Keys <= out.Keys
    ensures |before| <= |out|
  {
    assert |before.Keys| <= |out.Keys| by {
      assert out.Keys == before.Keys + (out.Keys - before.Keys);
    }
  }
}
