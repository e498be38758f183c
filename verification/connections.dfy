/** The /proc/net poller: a connection is reported when its key was not in the previous scan. */
module Connections {
  import opened Common
  import opened HexAddr

  /** The fields read from a line of /proc/net/tcp or tcp6. */
  datatype Line = Line(local: string, remote: string, state: nat, inode: nat)

  datatype Connected = Connected(src: string, dst: string, inode: nat)

  const ESTABLISHED := 1

  function Entry(line: Line): Connected { Connected(ParsedAddr(line.local), ParsedAddr(line.remote), line.inode) }

  function KeyOf(e: Connected): string { e.src + ":" + e.dst }

  /** The established connections of a scan under their keys; a later line replaces an earlier one. */
  function Current(lines: seq<Line>): map<string, Connected> {
    if lines == [] then map[]
    else
      var before, line := Current(lines[..|lines| - 1]), lines[|lines| - 1];
      if line.state == ESTABLISHED then before[KeyOf(Entry(line)) := Entry(line)] else before
  }

  lemma {:induction false} CurrentKeys(lines: seq<Line>)
    ensures forall key :: key in Current(lines) ==> KeyOf(Current(lines)[key]) == key
    ensures forall key :: key in Current(lines) <==>
              exists line :: line in lines && line.state == ESTABLISHED && KeyOf(Entry(line)) == key
  {
    hide KeyOf, Entry;
    if lines != [] {
      CurrentKeys(lines[..|lines| - 1]);
      assert lines == lines[..|lines| - 1] + [lines[|lines| - 1]];
    }
  }

  class ConnectionPoller {
    var known: set<string>

    constructor ()
      ensures known == {}
    {
      known := {};
    }

    method ReadLines(lines: seq<Line>) returns (current: map<string, Connected>)
      ensures current == Current(lines)
    {
      hide KeyOf, ParsedAddr;
      current := map[];
      var k := 0;
      while k < |lines|
        invariant 0 <= k <= |lines| && current == Current(lines[..k])
      {
        var line := lines[k];
        var local := ParseHexAddr(line.local);
        var remote := ParseHexAddr(line.remote);
        assert lines[..k + 1][..k] == lines[..k];
        if line.state == ESTABLISHED {
          var entry := Connected(local, remote, line.inode);
          current := current[KeyOf(entry) := entry];
        }
        k := k + 1;
      }
      assert lines[..k] == lines;
    }

    /** One tick; the keys are visited in an arbitrary order. */
    method Tick(lines: seq<Line>) returns (events: seq<Connected>)
      modifies this
      ensures known == Current(lines).Keys
      ensures IsTick(old(known), Current(lines), events)
    {
      hide KeyOf, Current;
      var current := ReadLines(lines);
      CurrentKeys(lines);
      events := [];
      var seen: set<string> := {};
      var todo := current.Keys;
      while todo != {}
        invariant todo <= current.Keys && seen == current.Keys - todo
        invariant forall e ::
          multiset(events)[e] == if KeyOf(e) in seen && KeyOf(e) !in known && current[KeyOf(e)] == e then 1 else 0
        decreases todo
      {
        var key :| key in todo;
        if key !in known {
          events := events + [current[key]];
        }
        todo := todo - {key};
        seen := seen + {key};
      }
      assert seen == current.Keys;
      known := current.Keys;
    }
  }

  // ---- kernel scans ----

  datatype Conn = Conn(local: Addr, remote: Addr, state: nat, inode: nat)

  predicate ValidScan(scan: seq<Conn>) { forall c :: c in scan ==> Valid(c.local) && Valid(c.remote) }

  function KernelLine(c: Conn): Line
    requires Valid(c.local) && Valid(c.remote)
  {
    Line(KernelText(c.local), KernelText(c.remote), c.state, c.inode)
  }

  function KernelLines(scan: seq<Conn>): seq<Line>
    requires ValidScan(scan)
  {
    seq(|scan|, i requires 0 <= i < |scan| => assert scan[i] in scan; KernelLine(scan[i]))
  }

  /** The pair of addresses is an established connection of the scan. */
  predicate Established(scan: seq<Conn>, local: Addr, remote: Addr) {
    exists c :: c in scan && c.local == local && c.remote == remote && c.state == 1
  }

  lemma KeyOfLine(c: Conn, local: Addr, remote: Addr)
    requires Valid(c.local) && Valid(c.remote) && Valid(local) && Valid(remote)
    ensures KeyOf(Entry(KernelLine(c))) == Key(c.local, c.remote)
    ensures KeyOf(Entry(KernelLine(c))) == Key(local, remote) <==> c.local == local && c.remote == remote
  {
    hide Render, KernelText, ParsedAddr, Valid;
    KernelTextRendered(c.local);
    KernelTextRendered(c.remote);
    if Key(c.local, c.remote) == Key(local, remote) {
      KeyInjective(c.local, c.remote, local, remote);
    }
  }

  /** A scan holds a pair's key exactly when it holds the pair. */
  lemma KeyMeansPair(scan: seq<Conn>, local: Addr, remote: Addr)
    requires ValidScan(scan) && Valid(local) && Valid(remote)
    ensures Key(local, remote) in Current(KernelLines(scan)) <==> Established(scan, local, remote)
  {
    hide Render, KernelText, ParsedAddr, Current, KeyOf, Key, Entry, Valid;
    var lines := KernelLines(scan);
    CurrentKeys(lines);
    forall i | 0 <= i < |scan|
      ensures KeyOf(Entry(lines[i])) == Key(local, remote) <==> scan[i].local == local && scan[i].remote == remote
    {
      assert scan[i] in scan;
      KeyOfLine(scan[i], local, remote);
    }
    if Established(scan, local, remote) {
      var c :| c in scan && c.local == local && c.remote == remote && c.state == ESTABLISHED;
      var i :| 0 <= i < |scan| && scan[i] == c;
      assert lines[i] in lines;
    }
    if Key(local, remote) in Current(lines) {
      var line :| line in lines && line.state == ESTABLISHED && KeyOf(Entry(line)) == Key(local, remote);
      var i :| 0 <= i < |lines| && lines[i] == line;
      assert scan[i] in scan;
    }
  }

  lemma EntryOfPair(scan: seq<Conn>, local: Addr, remote: Addr)
    requires ValidScan(scan) && Valid(local) && Valid(remote) && Key(local, remote) in Current(KernelLines(scan))
    ensures var e := Current(KernelLines(scan))[Key(local, remote)]; e.src == Render(local) && e.dst == Render(remote)
  {
    hide Render, KernelText, ParsedAddr, Current;
    var lines, key := KernelLines(scan), Key(local, remote);
    CurrentKeys(lines);
    CurrentValues(lines, key);
    var line :| line in lines && Entry(line) == Current(lines)[key];
    var i :| 0 <= i < |lines| && lines[i] == line;
    assert scan[i] in scan;
    KernelTextRendered(scan[i].local);
    KernelTextRendered(scan[i].remote);
    KeyInjective(scan[i].local, scan[i].remote, local, remote);
  }

  lemma {:induction false} CurrentValues(lines: seq<Line>, key: string)
    requires key in Current(lines)
    ensures exists line :: line in lines && Entry(line) == Current(lines)[key]
  {
    hide KeyOf, Entry;
    var init := lines[..|lines| - 1];
    assert lines == init + [lines[|lines| - 1]];
    if key in Current(init) && Current(init)[key] == Current(lines)[key] {
      CurrentValues(init, key);
      var line :| line in init && Entry(line) == Current(init)[key];
      assert line in lines;
    } else {
      assert lines[|lines| - 1] in lines;
    }
  }

  function Names(src: string, dst: string): Connected -> bool { (e: Connected) => e.src == src && e.dst == dst }

  /** The number of events that name a pair of addresses. */
  function Reports(events: seq<Connected>, src: string, dst: string): nat { |Filter(events, Names(src, dst))| }

  /** What one tick promises. */
  ghost predicate IsTick(known: set<string>, current: map<string, Connected>, events: seq<Connected>) {
    forall e :: multiset(events)[e] ==
      if KeyOf(e) in current && KeyOf(e) !in known && current[KeyOf(e)] == e then 1 else 0
  }

  lemma ReportsOfTick(known: set<string>, current: map<string, Connected>, events: seq<Connected>, src: string,
      dst: string)
    requires IsTick(known, current, events)
    requires var key := src + ":" + dst; key in current ==> current[key].src == src && current[key].dst == dst
    ensures Reports(events, src, dst) == if src + ":" + dst in current && src + ":" + dst !in known then 1 else 0
  {
    var key, found := src + ":" + dst, Filter(events, Names(src, dst));
    FilterMembers(events, Names(src, dst));
    EmptyOrNot(found);
    forall e | e in found
      ensures key in current && key !in known && e == current[key]
    {
      assert multiset(events)[e] > 0 && KeyOf(e) == key;
    }
    if key in current && key !in known {
      FilterCount(events, Names(src, dst), current[key]);
      OneKind(found, current[key]);
    }
  }

  lemma EmptyOrNot(s: seq<Connected>)
    ensures s == [] || exists e :: e in s
  {
    if s != [] {
      assert s[0] in s;
    }
  }

  lemma {:induction false} OneKind(s: seq<Connected>, e: Connected)
    requires forall x :: x in s ==> x == e
    ensures |s| == multiset(s)[e]
  {
    if s != [] {
      assert s == [s[0]] + s[1..] && s[0] in s;
      assert forall x :: x in s[1..] ==> x in s;
      OneKind(s[1..], e);
    }
  }

  /** After a scan `before`, the events of the next tick report a pair of addresses once if it is
      established now and was not then, and otherwise not at all. */
  lemma NewConnectionsReportedOnce(before: seq<Conn>, now: seq<Conn>, events: seq<Connected>, local: Addr, remote: Addr)
    requires ValidScan(before) && ValidScan(now) && Valid(local) && Valid(remote)
    requires IsTick(Current(KernelLines(before)).Keys, Current(KernelLines(now)), events)
    ensures Reports(events, Render(local), Render(remote))
         == if Established(now, local, remote) && !Established(before, local, remote) then 1 else 0
  {
    hide Render, KernelLines, Current, Established, IsTick, Reports;
    KeyMeansPair(before, local, remote);
    KeyMeansPair(now, local, remote);
    if Key(local, remote) in Current(KernelLines(now)) {
      EntryOfPair(now, local, remote);
    }
    ReportsOfTick(Current(KernelLines(before)).Keys, Current(KernelLines(now)), events, Render(local), Render(remote));
  }

  lemma {:induction false} LastLineOf(lines: seq<Line>, i: nat)
    requires i < |lines| && lines[i].state == ESTABLISHED
    requires forall j :: i < j < |lines| && lines[j].state == ESTABLISHED ==>
               KeyOf(Entry(lines[j])) != KeyOf(Entry(lines[i]))
    ensures KeyOf(Entry(lines[i])) in Current(lines) && Current(lines)[KeyOf(Entry(lines[i]))] == Entry(lines[i])
    decreases |lines|
  {
    hide KeyOf, Entry;
    if i < |lines| - 1 {
      var init := lines[..|lines| - 1];
      assert init[i] == lines[i] && forall j :: 0 <= j < |init| ==> init[j] == lines[j];
      LastLineOf(init, i);
    }
  }

  /** The entry of an established pair is the last line that names it: its two addresses and its inode. */
  lemma LastLineWins(scan: seq<Conn>, i: nat)
    requires ValidScan(scan) && i < |scan| && scan[i].state == 1
    requires forall j :: i < j < |scan| && scan[j].state == 1 ==>
               scan[j].local != scan[i].local || scan[j].remote != scan[i].remote
    ensures scan[i] in scan
    ensures var key := Key(scan[i].local, scan[i].remote);
      && key in Current(KernelLines(scan))
      && Current(KernelLines(scan))[key] == Connected(Render(scan[i].local), Render(scan[i].remote), scan[i].inode)
  {
    hide Render, KernelText, ParsedAddr, Current, KeyOf, Key, Valid;
    var lines := KernelLines(scan);
    assert scan[i] in scan;
    forall j | i < j < |scan| && scan[j].state == 1
      ensures KeyOf(Entry(lines[j])) != KeyOf(Entry(lines[i]))
    {
      assert scan[j] in scan;
      KeyOfLine(scan[j], scan[i].local, scan[i].remote);
      KeyOfLine(scan[i], scan[i].local, scan[i].remote);
    }
    KeyOfLine(scan[i], scan[i].local, scan[i].remote);
    LastLineOf(lines, i);
    KernelTextRendered(scan[i].local);
    KernelTextRendered(scan[i].remote);
  }
}
