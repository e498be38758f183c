/** Kernel records in byte buffers: the fanotify batch walk and the proc-connector decoder.
    Integers are little-endian, as on every platform the agent is built for. */
module Records {
  import opened Common

  // ---- integers ----

  function Pow256(n: nat): nat { if n == 0 then 1 else 256 * Pow256(n - 1) }

  function Encode(v: nat, n: nat): (b: seq<Byte>)
    ensures |b| == n
  {
    if n == 0 then [] else [v % 256] + Encode(v / 256, n - 1)
  }

  function Value(b: seq<Byte>): nat {
    if b == [] then 0 else b[0] as nat + 256 * Value(b[1..])
  }

  lemma {:induction false} ValueOfEncoded(v: nat, n: nat)
    requires v < Pow256(n)
    ensures Value(Encode(v, n)) == v
  {
    if n > 0 {
      ValueOfEncoded(v / 256, n - 1);
      assert Encode(v, n)[1..] == Encode(v / 256, n - 1);
    }
  }

  lemma Powers()
    ensures Pow256(2) == 0x1_0000 && Pow256(4) == 0x1_0000_0000 && Pow256(8) == 0x1_0000_0000_0000_0000
  {
    assert Pow256(1) == 256;
    assert Pow256(2) == 256 * Pow256(1);
    assert Pow256(3) == 256 * Pow256(2);
    assert Pow256(4) == 256 * Pow256(3);
    assert Pow256(5) == 256 * Pow256(4);
    assert Pow256(6) == 256 * Pow256(5);
    assert Pow256(7) == 256 * Pow256(6);
  }

  predicate IsI32(x: int) { -0x8000_0000 <= x < 0x8000_0000 }

  /** The bits of a 32-bit integer read as unsigned, and back. */
  function ToU32(x: int): nat
    requires IsI32(x)
  {
    if x < 0 then x + 0x1_0000_0000 else x
  }

  function ToI32(u: nat): int { if u >= 0x8000_0000 then u - 0x1_0000_0000 else u }

  // ---- fanotify ----

  const META_SIZE := 24

  /** `FanotifyEventMetadata`, 24 bytes. */
  datatype Meta = Meta(eventLen: nat, vers: nat, reserved: nat, metadataLen: nat, mask: nat, fd: int, pid: int)

  predicate WellFormed(m: Meta) {
    && META_SIZE <= m.eventLen < 0x1_0000_0000 && m.vers < 256 && m.reserved < 256 && m.metadataLen < 0x1_0000
    && m.mask < 0x1_0000_0000_0000_0000 && IsI32(m.fd) && IsI32(m.pid)
  }

  function MetaBytes(m: Meta): (b: seq<Byte>)
    requires WellFormed(m)
    ensures |b| == META_SIZE
  {
    Encode(m.eventLen, 4) + [m.vers, m.reserved] + Encode(m.metadataLen, 2) + Encode(m.mask, 8)
    + Encode(ToU32(m.fd), 4) + Encode(ToU32(m.pid), 4)
  }

  function ReadMeta(b: seq<Byte>): Meta
    requires |b| >= META_SIZE
  {
    Meta(Value(b[0..4]), b[4], b[5], Value(b[6..8]), Value(b[8..16]), ToI32(Value(b[16..20])), ToI32(Value(b[20..24])))
  }

  lemma ReadWrittenMeta(m: Meta, rest: seq<Byte>)
    requires WellFormed(m)
    ensures ReadMeta(MetaBytes(m) + rest) == m
  {
    hide Encode, Value;
    var b := MetaBytes(m) + rest;
    Powers();
    ValueOfEncoded(m.eventLen, 4);
    ValueOfEncoded(m.metadataLen, 2);
    ValueOfEncoded(m.mask, 8);
    ValueOfEncoded(ToU32(m.fd), 4);
    ValueOfEncoded(ToU32(m.pid), 4);
    assert b[0..4] == Encode(m.eventLen, 4);
    assert b[6..8] == Encode(m.metadataLen, 2);
    assert b[8..16] == Encode(m.mask, 8);
    assert b[16..20] == Encode(ToU32(m.fd), 4);
    assert b[20..24] == Encode(ToU32(m.pid), 4);
  }

  lemma FourBytes(b: seq<Byte>)
    requires |b| == 4
    ensures Value(b) == b[0] as nat + 256 * b[1] as nat + 65536 * b[2] as nat + 16777216 * b[3] as nat
  {
    assert b[1..][1..] == b[2..] && b[2..][1..] == b[3..] && b[3..][1..] == [];
    assert Value(b[3..]) == b[3] as nat + 256 * Value([]);
    assert Value(b[2..]) == b[2] as nat + 256 * Value(b[3..]);
    assert Value(b[1..]) == b[1] as nat + 256 * Value(b[2..]);
  }

  /** Where the walk finds the length, the lowest byte of the mask, the descriptor and the pid of a record. */
  lemma MetaMeans(b: seq<Byte>)
    requires |b| >= 24
    ensures var m := ReadMeta(b);
      && m.eventLen == b[0] as nat + 256 * b[1] as nat + 65536 * b[2] as nat + 16777216 * b[3] as nat
      && m.mask % 256 == b[8] as nat
      && (m.fd < 0 <==> b[19] >= 128) && (m.fd - (b[16] as int + 256 * b[17] as int + 65536 * b[18] as int
        + 16777216 * b[19] as int)) % 0x1_0000_0000 == 0
      && (m.pid - (b[20] as int + 256 * b[21] as int + 65536 * b[22] as int + 16777216 * b[23] as int))
         % 0x1_0000_0000 == 0
  {
    FourBytes(b[0..4]);
    FourBytes(b[16..20]);
    FourBytes(b[20..24]);
    assert Value(b[8..16]) == b[8] as nat + 256 * Value(b[8..16][1..]);
  }

  /** The records a walk over these bytes visits. */
  function Walk(b: seq<Byte>): seq<Meta>
    decreases |b|
  {
    if |b| < META_SIZE then []
    else
      var m := ReadMeta(b);
      if m.eventLen < META_SIZE then []
      else [m] + (if m.eventLen <= |b| then Walk(b[m.eventLen..]) else [])
  }

  datatype Operation = Read | Write

  datatype FileAccessed = FileAccessed(pid: nat, path: string, operation: Operation)

  /** FAN_MODIFY is bit 1 of the mask; an access or an open counts as a read. */
  function OperationOf(mask: nat): Operation { if mask / 2 % 2 == 1 then Write else Read }

  /** An event is a write exactly when its mask has the bit of value 2, whatever its other bits; it carries the
      path of its descriptor, if it has one, and the pid. */
  lemma EventMeans(m: Meta, resolve: int -> string, high: nat, bit: nat, low: nat)
    requires m.mask == 4 * high + 2 * bit + low && bit < 2 && low < 2 && 0 <= m.pid < 0x8000_0000
    ensures EventOf(m, resolve)
         == FileAccessed(m.pid, if m.fd < 0 then "" else resolve(m.fd), if bit == 1 then Write else Read)
  {
    assert m.mask / 2 == 2 * high + bit;
  }

  /** `resolve` stands for reading the link /proc/self/fd/<fd>. */
  function EventOf(m: Meta, resolve: int -> string): FileAccessed {
    FileAccessed(if IsI32(m.pid) then ToU32(m.pid) else 0, if m.fd >= 0 then resolve(m.fd) else "", OperationOf(m.mask))
  }

  function Events(ms: seq<Meta>, resolve: int -> string): seq<FileAccessed> {
    Map(ms, (m: Meta) => EventOf(m, resolve))
  }

  /** Descriptors to close, in record order. */
  function ValidFds(ms: seq<Meta>): seq<int> {
    if ms == [] then [] else (if ms[0].fd >= 0 then [ms[0].fd] else []) + ValidFds(ms[1..])
  }

  lemma {:induction false} ValidFdsAppend(a: seq<Meta>, b: seq<Meta>)
    ensures ValidFds(a + b) == ValidFds(a) + ValidFds(b)
  {
    if a == [] {
      assert a + b == b;
    } else {
      assert (a + b)[0] == a[0] && (a + b)[1..] == a[1..] + b;
      ValidFdsAppend(a[1..], b);
      var first := if a[0].fd >= 0 then [a[0].fd] else [];
      assert first + (ValidFds(a[1..]) + ValidFds(b)) == (first + ValidFds(a[1..])) + ValidFds(b);
    }
  }

  function Min(a: nat, b: nat): nat { if a < b then a else b }

  method ReadMetaAt(buf: array<Byte>, offset: nat, ghost len: nat) returns (m: Meta)
    requires offset + META_SIZE <= len <= buf.Length
    ensures m == ReadMeta(buf[offset..len])
  {
    hide Value;
    m := Meta(Value(buf[offset..offset + 4]), buf[offset + 4], buf[offset + 5], Value(buf[offset + 6..offset + 8]),
              Value(buf[offset + 8..offset + 16]), ToI32(Value(buf[offset + 16..offset + 20])),
              ToI32(Value(buf[offset + 20..offset + 24])));
    SliceOf(buf, offset, len, 0, 4);
    SliceOf(buf, offset, len, 6, 8);
    SliceOf(buf, offset, len, 8, 16);
    SliceOf(buf, offset, len, 16, 20);
    SliceOf(buf, offset, len, 20, 24);
  }

  lemma SliceOf(buf: array<Byte>, offset: nat, len: nat, from: nat, to: nat)
    requires from <= to && offset + to <= len <= buf.Length
    ensures buf[offset..len][from..to] == buf[offset + from..offset + to]
  {
    var a, b := buf[offset..len][from..to], buf[offset + from..offset + to];
    forall i | 0 <= i < to - from
      ensures a[i] == b[i]
    {
      assert a[i] == buf[offset..len][from + i] == buf[offset + (from + i)];
    }
  }

  method ReadEvent(m: Meta, resolve: int -> string) returns (event: FileAccessed, closed: seq<int>)
    ensures event == EventOf(m, resolve)
    ensures closed == ValidFds([m])
  {
    var path := "";
    closed := [];
    if m.fd >= 0 {
      path := resolve(m.fd);
      closed := [m.fd];
    }
    event := FileAccessed(if IsI32(m.pid) then ToU32(m.pid) else 0, path, if m.mask / 2 % 2 == 1 then Write else Read);
    assert ValidFds([m]) == closed + ValidFds([m][1..]);
  }

  /** One batch of `read_fanotify_events`: `len` bytes were read, and the receiver takes
      `accepts` more events before it is gone. Every index stays inside the buffer. */
  method ReadBatch(buf: array<Byte>, len: nat, accepts: nat, resolve: int -> string)
    returns (sent: seq<FileAccessed>, closed: seq<int>, stopped: bool)
    requires buf.Length == 4096 && len <= 4096
    ensures var ms := Walk(buf[..len]);
      && (stopped <==> |ms| > accepts)
      && sent == Events(ms[..Min(accepts, |ms|)], resolve)
      && closed == ValidFds(ms[..Min(accepts + 1, |ms|)])
  {
    hide Walk, ReadMeta, Events, ValidFds;
    sent, closed, stopped := [], [], false;
    var offset := 0;
    ghost var done: seq<Meta> := [];
    ghost var rest := buf[..len];
    NothingRead(rest, resolve);
    while offset + META_SIZE <= len
      invariant Walk(buf[..len]) == done + Walk(rest)
      invariant rest == if offset <= len then buf[offset..len] else []
      invariant |sent| == |done| <= accepts && sent == Events(done, resolve) && closed == ValidFds(done)
      decreases len - offset
    {
      var meta := ReadMetaAt(buf, offset, len);
      WalkStep(rest);
      if meta.eventLen < META_SIZE {
        break;
      }
      var event, fds := ReadEvent(meta, resolve);
      ValidFdsAppend(done, [meta]);
      EventsAppend(done, meta, resolve);
      closed := closed + fds;
      ghost var after := if meta.eventLen <= |rest| then rest[meta.eventLen..] else [];
      assert done + ([meta] + Walk(after)) == (done + [meta]) + Walk(after);
      if |sent| >= accepts {
        assert ((done + [meta]) + Walk(after))[..accepts + 1] == done + [meta];
        assert ((done + [meta]) + Walk(after))[..accepts] == done;
        return sent, closed, true;
      }
      done := done + [meta];
      rest := after;
      sent := sent + [event];
      offset := offset + meta.eventLen;
    }
    WalkEnds(rest);
    assert done + [] == done;
    assert done[..|done|] == done;
  }

  lemma NothingRead(b: seq<Byte>, resolve: int -> string)
    ensures [] + Walk(b) == Walk(b) && Events([], resolve) == [] && ValidFds([]) == []
  {}

  lemma EventsAppend(ms: seq<Meta>, m: Meta, resolve: int -> string)
    ensures Events(ms + [m], resolve) == Events(ms, resolve) + [EventOf(m, resolve)]
  {}

  lemma WalkStep(b: seq<Byte>)
    requires |b| >= META_SIZE
    ensures Walk(b) == if ReadMeta(b).eventLen < META_SIZE then []
                       else [ReadMeta(b)] + Walk(if ReadMeta(b).eventLen <= |b| then b[ReadMeta(b).eventLen..] else [])
  {}

  lemma WalkEnds(b: seq<Byte>)
    requires |b| < META_SIZE || ReadMeta(b).eventLen < META_SIZE
    ensures Walk(b) == []
  {}

  /** A record as the kernel lays it out: its metadata and whatever it adds up to `eventLen`. */
  datatype Record = Record(meta: Meta, padding: seq<Byte>)

  predicate GoodRecord(r: Record) { WellFormed(r.meta) && r.meta.eventLen == META_SIZE + |r.padding| }

  function Layout(rs: seq<Record>): seq<Byte>
    requires forall r :: r in rs ==> GoodRecord(r)
  {
    if rs == [] then [] else assert GoodRecord(rs[0]); MetaBytes(rs[0].meta) + rs[0].padding + Layout(rs[1..])
  }

  /** A batch of well-formed records, padded or not, is visited record by record, in order, once each; the walk
      ends at a rest too short for a record, or at one that claims to be shorter than its own header. */
  lemma {:induction false} WalkVisitsEachRecord(rs: seq<Record>, tail: seq<Byte>)
    requires forall r :: r in rs ==> GoodRecord(r)
    requires |tail| < 24 || tail[0] as nat + 256 * tail[1] as nat + 65536 * tail[2] as nat
                            + 16777216 * tail[3] as nat < 24
    ensures Walk(Layout(rs) + tail) == Map(rs, (r: Record) => r.meta)
  {
    hide MetaBytes, ReadMeta;
    if rs == [] {
      assert Layout(rs) + tail == tail;
      if |tail| >= 24 {
        MetaMeans(tail);
      }
    } else {
      var r, rest := rs[0], Layout(rs[1..]) + tail;
      assert GoodRecord(r);
      var b := Layout(rs) + tail;
      assert b == MetaBytes(r.meta) + (r.padding + rest);
      ReadWrittenMeta(r.meta, r.padding + rest);
      assert b[r.meta.eventLen..] == rest;
      WalkVisitsEachRecord(rs[1..], tail);
      assert Map(rs, (x: Record) => x.meta) == [r.meta] + Map(rs[1..], (x: Record) => x.meta);
    }
  }

  /** Over a batch of well-formed records every valid descriptor is closed exactly when no
      record after the first undeliverable event holds one. */
  lemma AllClosedUnlessStopped(ms: seq<Meta>, accepts: nat)
    ensures ValidFds(ms[..Min(accepts + 1, |ms|)]) == ValidFds(ms) <==> forall i :: accepts < i < |ms| ==> ms[i].fd < 0
  {
    hide ValidFds;
    var n := Min(accepts + 1, |ms|);
    var seen, unseen := ms[..n], ms[n..];
    ValidFdsAppend(seen, unseen);
    assert ms == seen + unseen;
    NoValidFds(unseen);
    NoneFrom(ms, n);
    PrefixIsWhole(ValidFds(seen), ValidFds(unseen));
  }

  /** A batch of two descriptors whose first event finds the receiver gone: the second is never closed. */
  lemma StoppedLeavesDescriptorOpen(first: Meta, second: Meta)
    requires WellFormed(first) && WellFormed(second) && first.fd >= 0 && second.fd >= 0
    ensures ValidFds([first, second]) == [first.fd, second.fd]
    ensures ValidFds([first, second][..Min(0 + 1, 2)]) == [first.fd]
  {
    assert [first, second][1..] == [second] && [second][1..] == [];
    assert [first, second][..1] == [first] && [first][1..] == [];
    assert ValidFds([second]) == [second.fd] + ValidFds([]);
  }

  lemma NoneFrom(ms: seq<Meta>, n: nat)
    requires n <= |ms|
    ensures (forall i :: n <= i < |ms| ==> ms[i].fd < 0) <==> (forall i :: 0 <= i < |ms[n..]| ==> ms[n..][i].fd < 0)
  {
    var rest := ms[n..];
    if forall i :: 0 <= i < |rest| ==> rest[i].fd < 0 {
      forall i | n <= i < |ms|
        ensures ms[i].fd < 0
      {
        assert ms[i] == rest[i - n];
      }
    }
  }

  lemma PrefixIsWhole(a: seq<int>, b: seq<int>)
    ensures a == a + b <==> b == []
  {
    assert |a + b| == |a| + |b|;
  }

  lemma {:induction false} NoValidFds(ms: seq<Meta>)
    ensures ValidFds(ms) == [] <==> forall i :: 0 <= i < |ms| ==> ms[i].fd < 0
  {
    if ms != [] {
      NoValidFds(ms[1..]);
      assert forall i :: 1 <= i < |ms| ==> ms[i] == ms[1..][i - 1];
      assert forall i :: 0 <= i < |ms[1..]| ==> ms[1..][i] == ms[i + 1];
    }
  }

  // ---- proc connector ----

  datatype ProcEvent = Exec(pid: nat) | Exit(pid: nat, exitCode: int)

  const PROC_EVENT_EXEC := 0x0000_0002
  const PROC_EVENT_EXIT := 0x8000_0000

  const EVENT_OFFSET := 36  // nlmsghdr (16) + cn_msg header (20)
  const DATA_OFFSET := 52   // + what (4) + cpu (4) + timestamp (8)

  /** What one received message says. */
  function Decode(msg: seq<Byte>): Option<ProcEvent> {
    if |msg| < EVENT_OFFSET + 4 then None
    else
      var what := Value(msg[EVENT_OFFSET..EVENT_OFFSET + 4]);
      if what == PROC_EVENT_EXEC && |msg| >= DATA_OFFSET + 8 then Some(Exec(Value(msg[DATA_OFFSET..DATA_OFFSET + 4])))
      else if what == PROC_EVENT_EXIT && |msg| >= DATA_OFFSET + 16 then
        Some(Exit(Value(msg[DATA_OFFSET..DATA_OFFSET + 4]), ToI32(Value(msg[DATA_OFFSET + 8..DATA_OFFSET + 12]))))
      else None
  }

  /** One round of `read_proc_events` over the receive buffer. */
  method ReadProcEvent(buf: array<Byte>, len: nat) returns (event: Option<ProcEvent>)
    requires buf.Length == 4096 && len <= 4096
    ensures event == Decode(buf[..len])
  {
    hide Value;
    event := None;
    if len < 16 {
      return;
    }
    if len < EVENT_OFFSET + 4 {
      return;
    }
    var msg := buf[..len];
    var what := Value([buf[36], buf[37], buf[38], buf[39]]);
    assert msg[36..40] == [buf[36], buf[37], buf[38], buf[39]];
    if what == PROC_EVENT_EXEC {
      if len >= DATA_OFFSET + 8 {
        assert msg[52..56] == [buf[52], buf[53], buf[54], buf[55]];
        event := Some(Exec(Value([buf[52], buf[53], buf[54], buf[55]])));
      }
    } else if what == PROC_EVENT_EXIT {
      if len >= DATA_OFFSET + 16 {
        assert msg[52..56] == [buf[52], buf[53], buf[54], buf[55]];
        assert msg[60..64] == [buf[60], buf[61], buf[62], buf[63]];
        event := Some(Exit(Value([buf[52], buf[53], buf[54], buf[55]]),
          ToI32(Value([buf[60], buf[61], buf[62], buf[63]]))));
      }
    }
  }

  /** A proc event as the kernel sends it: 36 bytes of headers, `what`, cpu and timestamp, then its data. */
  function Message(headers: seq<Byte>, what: nat, cpuAndTime: seq<Byte>, data: seq<Byte>): seq<Byte> {
    headers + Encode(what, 4) + cpuAndTime + data
  }

  lemma MessageParts(headers: seq<Byte>, what: nat, cpuAndTime: seq<Byte>, data: seq<Byte>)
    requires |headers| == 36 && |cpuAndTime| == 12 && what < 0x1_0000_0000
    ensures var m := Message(headers, what, cpuAndTime, data);
      |m| == 52 + |data| && Value(m[36..40]) == what && m[52..] == data
  {
    Powers();
    ValueOfEncoded(what, 4);
    assert Message(headers, what, cpuAndTime, data)[36..40] == Encode(what, 4);
  }

  lemma Part(m: seq<Byte>, data: seq<Byte>, from: nat, to: nat)
    requires |m| == 52 + |data| && m[52..] == data && from <= to <= |data|
    ensures m[52 + from..52 + to] == data[from..to]
  {}

  lemma DecodeExec(headers: seq<Byte>, cpuAndTime: seq<Byte>, pid: nat, tgid: nat, more: seq<Byte>)
    requires |headers| == 36 && |cpuAndTime| == 12 && pid < 0x1_0000_0000
    ensures Decode(Message(headers, PROC_EVENT_EXEC, cpuAndTime, Encode(pid, 4) + Encode(tgid, 4) + more))
        == Some(Exec(pid))
  {
    hide Encode, Value, Message;
    var data := Encode(pid, 4) + Encode(tgid, 4) + more;
    Powers();
    ValueOfEncoded(pid, 4);
    MessageParts(headers, PROC_EVENT_EXEC, cpuAndTime, data);
    Part(Message(headers, PROC_EVENT_EXEC, cpuAndTime, data), data, 0, 4);
    assert data[0..4] == Encode(pid, 4);
  }

  lemma DecodeExit(headers: seq<Byte>, cpuAndTime: seq<Byte>, pid: nat, tgid: nat, code: int, signal: nat,
      more: seq<Byte>)
    requires |headers| == 36 && |cpuAndTime| == 12 && pid < 0x1_0000_0000 && IsI32(code)
    ensures Decode(Message(headers, PROC_EVENT_EXIT, cpuAndTime,
                           Encode(pid, 4) + Encode(tgid, 4) + Encode(ToU32(code), 4) + Encode(signal, 4) + more))
                             == Some(Exit(pid, code))
  {
    hide Encode, Value, Message;
    var data := Encode(pid, 4) + Encode(tgid, 4) + Encode(ToU32(code), 4) + Encode(signal, 4) + more;
    Powers();
    ValueOfEncoded(pid, 4);
    ValueOfEncoded(ToU32(code), 4);
    MessageParts(headers, PROC_EVENT_EXIT, cpuAndTime, data);
    var m := Message(headers, PROC_EVENT_EXIT, cpuAndTime, data);
    Part(m, data, 0, 4);
    Part(m, data, 8, 12);
    assert data[0..4] == Encode(pid, 4) && data[8..12] == Encode(ToU32(code), 4);
  }

  /** The decoder inverts the exec and exit layouts, with anything after them, and ignores every other kind. */
  lemma DecodeInvertsLayout(headers: seq<Byte>, cpuAndTime: seq<Byte>, what: nat, pid: nat, tgid: nat, code: int,
      signal: nat, more: seq<Byte>)
    requires |headers| == 36 && |cpuAndTime| == 12
    requires what < 0x1_0000_0000 && pid < 0x1_0000_0000 && IsI32(code)
    ensures Decode(Message(headers, 2, cpuAndTime, Encode(pid, 4) + Encode(tgid, 4) + more)) == Some(Exec(pid))
    ensures Decode(Message(headers, 0x8000_0000, cpuAndTime,
                           Encode(pid, 4) + Encode(tgid, 4) + Encode(ToU32(code), 4) + Encode(signal, 4) + more))
                             == Some(Exit(pid, code))
    ensures what != 2 && what != 0x8000_0000 ==> Decode(Message(headers, what, cpuAndTime, more)) == None
  {
    hide Encode, Value, Message;
    DecodeExec(headers, cpuAndTime, pid, tgid, more);
    DecodeExit(headers, cpuAndTime, pid, tgid, code, signal, more);
    MessageParts(headers, what, cpuAndTime, more);
  }

  /** A message cut short is ignored: one without room for its kind, an exec without both pids, an exit without its
      code and signal. */
  lemma ShortMessagesIgnored(msg: seq<Byte>)
    ensures |msg| < 40 ==> Decode(msg) == None
    ensures |msg| < 60 ==> Decode(msg) == None
    ensures |msg| < 68 && Decode(msg).Some? ==> Decode(msg).value.Exec?
  {}
}
