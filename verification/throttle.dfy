/** The login throttle: a pruned list of attempts per lower-cased user name stands for
    the whole history of admitted attempts since the last successful login. */
module Throttle {
  import opened Common

  const MAX_LOGIN_ATTEMPTS := 5

  /** Five minutes, in milliseconds. */
  const LOGIN_WINDOW := 300_000

  /** `now.duration_since(t)`: saturates at zero. */
  function Since(now: int, t: int): nat { if now > t then now - t else 0 }

  predicate Recent(now: int, t: int) { Since(now, t) < LOGIN_WINDOW }

  /** `entry.retain(..)`. */
  function Retain(times: seq<int>, now: int): seq<int> {
    if times == [] then [] else (if Recent(now, times[0]) then [times[0]] else []) + Retain(times[1..], now)
  }

  function Entry(m: map<string, seq<int>>, key: string): seq<int> { if key in m then m[key] else [] }

  /** One call on the entry of a name: the new entry, and whether the attempt is rejected. */
  function Attempt(entry: seq<int>, now: int): (seq<int>, bool) {
    var kept := Retain(entry, now);
    if |kept| >= MAX_LOGIN_ATTEMPTS then (kept, true)
    else (kept + [now], |kept| + 1 > MAX_LOGIN_ATTEMPTS)
  }

  class LoginThrottle {
    var attempts: map<string, seq<int>>
    const lower: string -> string

    constructor (lower: string -> string)
      ensures attempts == map[] && this.lower == lower
    {
      attempts, this.lower := map[], lower;
    }

    method RecordFailedAttempt(username: string, now: int) returns (rejected: bool)
      modifies this
      ensures attempts == old(attempts)[lower(username) := Attempt(Entry(old(attempts), lower(username)), now).0]
      ensures rejected == Attempt(Entry(old(attempts), lower(username)), now).1
    {
      var key := lower(username);
      var entry := if key in attempts then attempts[key] else [];
      var kept := KeepRecent(entry, now);
      if |kept| >= MAX_LOGIN_ATTEMPTS {
        attempts := attempts[key := kept];
        return true;
      }
      kept := kept + [now];
      attempts := attempts[key := kept];
      return |kept| > MAX_LOGIN_ATTEMPTS;
    }

    method KeepRecent(entry: seq<int>, now: int) returns (kept: seq<int>)
      ensures kept == Retain(entry, now)
    {
      hide Retain;
      kept := [];
      var k := 0;
      assert entry[k..] == entry && kept + Retain(entry, now) == Retain(entry, now);
      while k < |entry|
        invariant 0 <= k <= |entry|
        invariant kept + Retain(entry[k..], now) == Retain(entry, now)
      {
        assert entry[k..][1..] == entry[k + 1..];
        RetainHead(entry[k..], now);
        if Recent(now, entry[k]) {
          kept := kept + [entry[k]];
        }
        k := k + 1;
      }
      RetainNone(entry[k..], now);
      assert kept + [] == kept;
    }

    method ClearAttempts(username: string)
      modifies this
      ensures attempts == old(attempts) - {lower(username)}
    {
      attempts := attempts - {lower(username)};
    }
  }

  // ---- runs of calls ----

  datatype Call = Try(username: string, now: int) | Clear(username: string)

  /** The throttle's map next to the full history of attempts it admitted since the last clear. */
  datatype State = State(attempts: map<string, seq<int>>, admitted: map<string, seq<int>>, clock: int)

  function Step(s: State, lower: string -> string, c: Call): (State, bool) {
    match c
    case Try(u, now) =>
      var key := lower(u);
      var (entry, rejected) := Attempt(Entry(s.attempts, key), now);
      (State(s.attempts[key := entry],
             if rejected then s.admitted else s.admitted[key := Entry(s.admitted, key) + [now]],
             now), rejected)
    case Clear(u) => (s.(attempts := s.attempts - {lower(u)}, admitted := s.admitted - {lower(u)}), false)
  }

  /** Times never go back. */
  predicate Timely(s: State, c: Call) { c.Try? ==> s.clock <= c.now }

  function Run(s: State, lower: string -> string, calls: seq<Call>): Option<State>
    decreases |calls|
  {
    if calls == [] then Some(s)
    else if Timely(s, calls[0]) then Run(Step(s, lower, calls[0]).0, lower, calls[1..])
    else None
  }

  function Start(clock: int): State { State(map[], map[], clock) }

  // ---- the invariant ----

  ghost predicate Ordered(times: seq<int>, clock: int) {
    && (forall i, j :: 0 <= i < j < |times| ==> times[i] <= times[j])
    && (forall i :: 0 <= i < |times| ==> times[i] <= clock)
  }

  /** Five admitted attempts before, this one was already out of the window. */
  ghost predicate Spread(times: seq<int>) {
    forall i :: 0 <= i && i + MAX_LOGIN_ATTEMPTS < |times| ==> times[i + MAX_LOGIN_ATTEMPTS] - times[i] >= LOGIN_WINDOW
  }

  /** The list kept is what is left of the history at some moment not after the clock. */
  ghost predicate Pruned(entry: seq<int>, admitted: seq<int>, clock: int) {
    exists n :: 0 <= n <= |admitted| && entry == admitted[n..]
      && forall i :: 0 <= i < n ==> clock - admitted[i] >= LOGIN_WINDOW
  }

  ghost predicate Inv(s: State) {
    forall key: string ::
      && Ordered(Entry(s.admitted, key), s.clock)
      && Spread(Entry(s.admitted, key))
      && Pruned(Entry(s.attempts, key), Entry(s.admitted, key), s.clock)
  }

  lemma {:induction false} RetainAppend(a: seq<int>, b: seq<int>, now: int)
    ensures Retain(a + b, now) == Retain(a, now) + Retain(b, now)
  {
    if a == [] {
      assert a + b == b;
    } else {
      assert (a + b)[0] == a[0] && (a + b)[1..] == a[1..] + b;
      RetainAppend(a[1..], b, now);
      var first := if Recent(now, a[0]) then [a[0]] else [];
      assert first + (Retain(a[1..], now) + Retain(b, now)) == (first + Retain(a[1..], now)) + Retain(b, now);
    }
  }

  lemma {:induction false} RetainNone(a: seq<int>, now: int)
    requires forall i :: 0 <= i < |a| ==> now - a[i] >= LOGIN_WINDOW
    ensures Retain(a, now) == []
  {
    if a != [] {
      RetainNone(a[1..], now);
    }
  }

  /** In a non-decreasing list the recent times are a suffix. */
  lemma {:induction false} RetainIsSuffix(times: seq<int>, now: int) returns (n: nat)
    requires Ordered(times, now)
    ensures n <= |times| && Retain(times, now) == times[n..]
    ensures forall i :: 0 <= i < n ==> now - times[i] >= LOGIN_WINDOW
    ensures forall i :: n <= i < |times| ==> now - times[i] < LOGIN_WINDOW
  {
    if times == [] {
      n := 0;
    } else if Recent(now, times[0]) {
      n := 0;
      RetainAll(times, now);
    } else {
      hide Retain;
      var rest := times[1..];
      var k := RetainIsSuffix(rest, now);
      RetainTail(times, now);
      n := k + 1;
      assert forall i :: 1 <= i < |times| ==> times[i] == rest[i - 1];
      assert times[n..] == rest[k..];
    }
  }

  lemma RetainHead(times: seq<int>, now: int)
    requires times != []
    ensures Retain(times, now) == (if Recent(now, times[0]) then [times[0]] else []) + Retain(times[1..], now)
  {}

  lemma RetainTail(times: seq<int>, now: int)
    requires times != [] && !Recent(now, times[0])
    ensures Retain(times, now) == Retain(times[1..], now)
  {}

  lemma {:induction false} RetainAll(times: seq<int>, now: int)
    requires forall i :: 0 <= i < |times| ==> Recent(now, times[i])
    ensures Retain(times, now) == times
  {
    if times != [] {
      RetainAll(times[1..], now);
    }
  }

  /** Pruning the kept list or the whole history leaves the same recent attempts. */
  lemma PrunedRetain(entry: seq<int>, admitted: seq<int>, clock: int, now: int)
    requires Pruned(entry, admitted, clock) && Ordered(admitted, clock) && clock <= now
    ensures Retain(entry, now) == Retain(admitted, now)
  {
    hide Retain;
    var n :| 0 <= n <= |admitted| && entry == admitted[n..]
      && forall i :: 0 <= i < n ==> clock - admitted[i] >= LOGIN_WINDOW;
    RetainNone(admitted[..n], now);
    RetainAppend(admitted[..n], admitted[n..], now);
    assert admitted[..n] + admitted[n..] == admitted;
    assert [] + Retain(admitted[n..], now) == Retain(admitted[n..], now);
  }

  lemma AdmitKeepsSpread(admitted: seq<int>, n: nat, now: int)
    requires Ordered(admitted, now) && Spread(admitted)
    requires n <= |admitted| < n + MAX_LOGIN_ATTEMPTS
    requires forall i :: 0 <= i < n ==> now - admitted[i] >= LOGIN_WINDOW
    ensures Ordered(admitted + [now], now) && Spread(admitted + [now])
  {
    var longer := admitted + [now];
    forall i | 0 <= i && i + MAX_LOGIN_ATTEMPTS < |longer|
      ensures longer[i + MAX_LOGIN_ATTEMPTS] - longer[i] >= LOGIN_WINDOW
    {
      assert longer[i] == admitted[i];
    }
  }

  lemma AttemptKeepsEntry(entry: seq<int>, admitted: seq<int>, clock: int, now: int)
    requires Pruned(entry, admitted, clock) && Ordered(admitted, clock) && Spread(admitted) && clock <= now
    ensures var admitted' := if Attempt(entry, now).1 then admitted else admitted + [now];
      && Ordered(admitted', now) && Spread(admitted') && Pruned(Attempt(entry, now).0, admitted', now)
      && (Attempt(entry, now).1 <==> |Retain(admitted, now)| >= MAX_LOGIN_ATTEMPTS)
  {
    hide Retain;
    PrunedRetain(entry, admitted, clock, now);
    var n := RetainIsSuffix(admitted, now);
    var kept := Retain(admitted, now);
    if |kept| < MAX_LOGIN_ATTEMPTS {
      AdmitKeepsSpread(admitted, n, now);
      assert (admitted + [now])[n..] == kept + [now];
    }
  }

  lemma StepInv(s: State, lower: string -> string, c: Call)
    requires Inv(s) && Timely(s, c)
    ensures Inv(Step(s, lower, c).0)
  {
    hide Attempt;
    var s' := Step(s, lower, c).0;
    forall key: string
      ensures Ordered(Entry(s'.admitted, key), s'.clock) && Spread(Entry(s'.admitted, key))
      ensures Pruned(Entry(s'.attempts, key), Entry(s'.admitted, key), s'.clock)
    {
      var entry, admitted := Entry(s.attempts, key), Entry(s.admitted, key);
      if c.Try? && key == lower(c.username) {
        AttemptKeepsEntry(entry, admitted, s.clock, c.now);
      } else if c.Clear? && key == lower(c.username) {
        assert Entry(s'.admitted, key) == [] && Entry(s'.attempts, key) == [][0..];
      } else {
        assert Entry(s'.admitted, key) == admitted && Entry(s'.attempts, key) == entry;
        var n :| 0 <= n <= |admitted| && entry == admitted[n..]
          && forall i :: 0 <= i < n ==> s.clock - admitted[i] >= LOGIN_WINDOW;
      }
    }
  }

  lemma {:induction false} RunInv(s: State, lower: string -> string, calls: seq<Call>)
    requires Inv(s) && Run(s, lower, calls).Some?
    ensures Inv(Run(s, lower, calls).value)
    decreases |calls|
  {
    hide Inv, Step, Timely;
    if calls != [] {
      StepInv(s, lower, calls[0]);
      RunInv(Step(s, lower, calls[0]).0, lower, calls[1..]);
    }
  }

  lemma StartInv(clock: int)
    ensures Inv(Start(clock))
  {
    var none: seq<int> := [];
    assert none == none[0..];
  }

  // ---- what the throttle guarantees ----

  /** Admitted attempts in the half-open window of five minutes that ends with `now`. */
  function InWindow(times: seq<int>, now: int): nat { |Retain(times, now)| }

  lemma {:induction false} RetainIsFilter(times: seq<int>, now: int)
    requires forall i :: 0 <= i < |times| ==> times[i] <= now
    ensures Retain(times, now) == Filter(times, (t: int) => now - t < 300_000)
  {
    if times != [] {
      RetainIsFilter(times[1..], now);
    }
  }

  /** After any run, the next attempt is rejected exactly when five attempts for that
      lower-cased name were admitted in the last five minutes since the last clear, that is, exactly when
      the fifth-last admitted attempt is less than five minutes old. */
  lemma RejectedExactlyWhenFull(lower: string -> string, clock: int, calls: seq<Call>, u: string, now: int)
    requires Run(Start(clock), lower, calls).Some?
    requires Run(Start(clock), lower, calls).value.clock <= now
    ensures var s := Run(Start(clock), lower, calls).value;
      var admitted := Entry(s.admitted, lower(u));
      && (Step(s, lower, Try(u, now)).1 <==> |Filter(admitted, (t: int) => now - t < 300_000)| >= 5)
      && (Step(s, lower, Try(u, now)).1 <==> |admitted| >= 5 && now - admitted[|admitted| - 5] < 300_000)
  {
    hide Attempt, Run;
    StartInv(clock);
    RunInv(Start(clock), lower, calls);
    var s := Run(Start(clock), lower, calls).value;
    var admitted := Entry(s.admitted, lower(u));
    AttemptKeepsEntry(Entry(s.attempts, lower(u)), admitted, s.clock, now);
    RetainIsFilter(admitted, now);
    var n := RetainIsSuffix(admitted, now);
  }

  /** No five-minute window without a clear holds more than five admitted attempts. */
  lemma AtMostFivePerWindow(lower: string -> string, clock: int, calls: seq<Call>, key: string, i: nat, j: nat)
    requires Run(Start(clock), lower, calls).Some?
    requires var admitted := Entry(Run(Start(clock), lower, calls).value.admitted, key);
      i <= j < |admitted| && admitted[j] - admitted[i] < 300_000
    ensures j - i + 1 <= 5
  {
    hide Run;
    StartInv(clock);
    RunInv(Start(clock), lower, calls);
    var admitted := Entry(Run(Start(clock), lower, calls).value.admitted, key);
    var k := i + MAX_LOGIN_ATTEMPTS;
    assert k < |admitted| ==> admitted[k] - admitted[i] >= LOGIN_WINDOW;
  }

  /** The answers to a list of calls. */
  function Decisions(s: State, lower: string -> string, calls: seq<Call>): seq<bool>
    decreases |calls|
  {
    if calls == [] then []
    else [Step(s, lower, calls[0]).1] + Decisions(Step(s, lower, calls[0]).0, lower, calls[1..])
  }

  /** Both states have admitted the same attempts for every name the calls use. */
  ghost predicate SameHistory(s: State, t: State, lower: string -> string, calls: seq<Call>) {
    forall c :: c in calls ==> Entry(s.admitted, lower(c.username)) == Entry(t.admitted, lower(c.username))
  }

  lemma StepAdmits(s: State, lower: string -> string, c: Call)
    requires Inv(s) && Timely(s, c)
    ensures var s', key := Step(s, lower, c).0, lower(c.username);
      && (forall other: string :: other != key ==> Entry(s'.admitted, other) == Entry(s.admitted, other))
      && (c.Clear? ==> Entry(s'.admitted, key) == [] && !Step(s, lower, c).1)
      && (c.Try? ==>
            var full := InWindow(Entry(s.admitted, key), c.now) >= MAX_LOGIN_ATTEMPTS;
            Step(s, lower, c).1 == full
            && Entry(s'.admitted, key) == Entry(s.admitted, key) + if full then [] else [c.now])
  {
    hide Attempt, Retain;
    if c.Try? {
      var key := lower(c.username);
      AttemptKeepsEntry(Entry(s.attempts, key), Entry(s.admitted, key), s.clock, c.now);
      assert Entry(s.admitted, key) + [] == Entry(s.admitted, key);
    }
  }

  /** Only the admitted attempts decide: states that agree on them answer every continuation alike. */
  lemma {:induction false} HistoryDecides(s: State, t: State, lower: string -> string, calls: seq<Call>)
    requires Inv(s) && Inv(t) && SameHistory(s, t, lower, calls)
    requires Run(s, lower, calls).Some? && Run(t, lower, calls).Some?
    ensures Decisions(s, lower, calls) == Decisions(t, lower, calls)
    decreases |calls|
  {
    hide Inv, Step, InWindow;
    if calls != [] {
      var c, rest := calls[0], calls[1..];
      assert c in calls && forall x :: x in rest ==> x in calls;
      StepAdmits(s, lower, c);
      StepAdmits(t, lower, c);
      StepInv(s, lower, c);
      StepInv(t, lower, c);
      HistoryDecides(Step(s, lower, c).0, Step(t, lower, c).0, lower, rest);
    }
  }

  /** A rejected attempt leaves every later decision, however the calls go on, as it would have been
      without it. */
  lemma RejectionProlongsNothing(lower: string -> string, s: State, u: string, now: int, more: seq<Call>)
    requires Inv(s) && s.clock <= now && Step(s, lower, Try(u, now)).1
    requires Run(Step(s, lower, Try(u, now)).0, lower, more).Some?
    ensures Run(s, lower, more).Some?
    ensures Decisions(Step(s, lower, Try(u, now)).0, lower, more) == Decisions(s, lower, more)
  {
    var s' := Step(s, lower, Try(u, now)).0;
    StepInv(s, lower, Try(u, now));
    EarlierClockRuns(s, s', lower, more);
    hide Step;
    HistoryDecides(s', s, lower, more);
  }

  lemma {:induction false} EarlierClockRuns(s: State, t: State, lower: string -> string, calls: seq<Call>)
    requires s.clock <= t.clock && Run(t, lower, calls).Some?
    ensures Run(s, lower, calls).Some?
    decreases |calls|
  {
    hide Attempt;
    if calls != [] {
      EarlierClockRuns(Step(s, lower, calls[0]).0, Step(t, lower, calls[0]).0, lower, calls[1..]);
    }
  }

  /** A successful login forgets the name's past: the answers to its later calls are those of a fresh throttle. */
  lemma ClearForgets(lower: string -> string, s: State, u: string, more: seq<Call>)
    requires Inv(s) && forall c :: c in more ==> lower(c.username) == lower(u)
    requires Run(Step(s, lower, Clear(u)).0, lower, more).Some?
    ensures Run(Start(s.clock), lower, more).Some?
    ensures Decisions(Step(s, lower, Clear(u)).0, lower, more) == Decisions(Start(s.clock), lower, more)
  {
    var s' := Step(s, lower, Clear(u)).0;
    StepInv(s, lower, Clear(u));
    StartInv(s.clock);
    EarlierClockRuns(Start(s.clock), s', lower, more);
    hide Step;
    HistoryDecides(s', Start(s.clock), lower, more);
  }

  /** Calls for one name do not touch any other. */
  lemma OtherNamesUnaffected(lower: string -> string, s: State, c: Call, v: string)
    requires lower(c.username) != lower(v)
    ensures Entry(Step(s, lower, c).0.attempts, lower(v)) == Entry(s.attempts, lower(v))
    ensures Entry(Step(s, lower, c).0.admitted, lower(v)) == Entry(s.admitted, lower(v))
  {}

  /** A lockout ends: once the oldest of the last five admitted attempts is five minutes old the next is admitted. */
  lemma LockoutEnds(lower: string -> string, s: State, u: string, now: int)
    requires Inv(s) && s.clock <= now
    requires var admitted := Entry(s.admitted, lower(u));
      |admitted| >= 5 ==> now - admitted[|admitted| - 5] >= 300_000
    ensures !Step(s, lower, Try(u, now)).1
  {
    hide Attempt;
    var admitted := Entry(s.admitted, lower(u));
    AttemptKeepsEntry(Entry(s.attempts, lower(u)), admitted, s.clock, now);
    var n := RetainIsSuffix(admitted, now);
  }
}
