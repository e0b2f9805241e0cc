/**
 The fixed-window rate limiter: per-key windows, eviction of expired windows when the
 table is full, and the bound it gives on accepted calls in any interval.
 */
module RateLimiter {

  datatype Window = Window(startedAt: int, count: nat)

  /** Constructor arguments: a positive limit and a window of at least one second. */
  datatype Config = Config(limit: int, windowMs: int, maxKeys: int) {
    predicate Accepted() { limit >= 1 && windowMs >= 1000 }
  }

  type Table = map<string, Window>

  datatype Outcome = Passed | TooManyClients | LimitExceeded(retryAfterSeconds: int)

  /** The table without the windows that have run out. */
  function EvictExpired(c: Config, t: Table, now: int): (r: Table)
    ensures r.Keys <= t.Keys
  {
    map k | k in t && now - t[k].startedAt < c.windowMs :: t[k]
  }

  /** Milliseconds left in a window, as whole seconds and at least one. */
  function RetryAfter(c: Config, w: Window, now: int): int {
    var seconds := (w.startedAt + c.windowMs - now + 999) / 1000;
    if seconds < 1 then 1 else seconds
  }

  function Count(c: Config, t: Table, key: string, w: Window, now: int): (Table, Outcome) {
    var counted := Window(w.startedAt, w.count + 1);
    (t[key := counted], if counted.count > c.limit then LimitExceeded(RetryAfter(c, counted, now)) else Passed)
  }

  /** One call of `consume` at clock reading `now`: the new table and the outcome. */
  function Consumed(c: Config, t: Table, key: string, now: int): (Table, Outcome) {
    if key in t && now - t[key].startedAt < c.windowMs then Count(c, t, key, t[key], now)
    else if key in t then Count(c, t, key, Window(now, 0), now)
    else
      var kept := if |t| >= c.maxKeys then EvictExpired(c, t, now) else t;
      if |kept| >= c.maxKeys then (kept, TooManyClients)
      else Count(c, kept, key, Window(now, 0), now)
  }

  class FixedWindowRateLimiter {
    const config: Config
    var windows: Table

    constructor (config: Config)
      requires config.Accepted()
      ensures this.config == config && windows == map[]
    {
      this.config := config;
      windows := map[];
    }

    method Evict(now: int)
      modifies this
      ensures windows == EvictExpired(config, old(windows), now)
    {
      var pending := windows.Keys;
      while pending != {}
        invariant pending <= old(windows.Keys) && pending <= windows.Keys <= old(windows.Keys)
        invariant forall k :: k in windows ==> windows[k] == old(windows)[k]
        invariant forall k :: k in old(windows) && k !in pending ==>
          (k in windows <==> now - old(windows)[k].startedAt < config.windowMs)
        decreases pending
      {
        var key :| key in pending;
        if now - windows[key].startedAt >= config.windowMs {
          windows := windows - {key};
        }
        pending := pending - {key};
      }
    }

    method Consume(key: string, now: int) returns (outcome: Outcome)
      modifies this
      ensures (windows, outcome) == Consumed(config, old(windows), key, now)
    {
      var known := key in windows;
      var entry := if known then windows[key] else Window(now, 0);
      if !known || now - entry.startedAt >= config.windowMs {
        if !known && |windows| >= config.maxKeys {
          Evict(now);
        }
        if !known && |windows| >= config.maxKeys {
          return TooManyClients;
        }
        entry := Window(now, 0);
        windows := windows[key := entry];
      }
      ghost var base := if known then old(windows)
        else if |old(windows)| >= config.maxKeys then EvictExpired(config, old(windows), now) else old(windows);
      entry := Window(entry.startedAt, entry.count + 1);
      windows := windows[key := entry];
      assert windows == base[key := entry];
      if entry.count > config.limit {
        return LimitExceeded(RetryAfter(config, entry, now));
      }
      return Passed;
    }
  }

  // ----- whole histories -----

  datatype Call = Call(key: string, time: int)

  /** An accepted call together with the start of the window that counted it. */
  datatype Accept = Accept(key: string, time: int, window: int)

  datatype State = State(table: Table, accepted: seq<Accept>)

  function Step(c: Config, s: State, call: Call): State {
    var (table, outcome) := Consumed(c, s.table, call.key, call.time);
    State(table, if outcome == Passed && call.key in table
      then s.accepted + [Accept(call.key, call.time, table[call.key].startedAt)] else s.accepted)
  }

  function Run(c: Config, calls: seq<Call>): State {
    if calls == [] then State(map[], [])
    else Step(c, Run(c, calls[..|calls| - 1]), calls[|calls| - 1])
  }

  predicate Monotone(calls: seq<Call>) {
    forall i, j :: 0 <= i < j < |calls| ==> calls[i].time <= calls[j].time
  }

  /** Accepted calls of a key counted by the window that started at `start`. */
  function CountWindow(acc: seq<Accept>, key: string, start: int): nat {
    if acc == [] then 0
    else
      var last := acc[|acc| - 1];
      CountWindow(acc[..|acc| - 1], key, start) + if last.key == key && last.window == start then 1 else 0
  }

  predicate InInterval(a: Accept, key: string, from: int, width: int) {
    a.key == key && from <= a.time < from + width
  }

  /** Accepted calls of a key in the half-open interval of the given width. */
  function CountInterval(acc: seq<Accept>, key: string, from: int, width: int): nat {
    if acc == [] then 0
    else CountInterval(acc[..|acc| - 1], key, from, width) + if InInterval(acc[|acc| - 1], key, from, width) then 1 else 0
  }

  /**
   The clock never runs backwards as far as one client is concerned: each of its readings
   is at least every reading before it. Readings at other clients' calls may go back and
   forth below that.
   */
  predicate SteadyFor(calls: seq<Call>, key: string) {
    forall i, j :: 0 <= i < j < |calls| && calls[j].key == key ==> calls[i].time <= calls[j].time
  }

  /** Every accepted call of the key falls into the window that counted it. */
  ghost predicate Inside(c: Config, acc: seq<Accept>, key: string, now: int) {
    forall i :: 0 <= i < |acc| && acc[i].key == key ==> acc[i].window <= acc[i].time < acc[i].window + c.windowMs && acc[i].time <= now
  }

  /** Windows of the key start at least one width apart. */
  ghost predicate Spaced(c: Config, acc: seq<Accept>, key: string) {
    forall i, j :: 0 <= i < j < |acc| && acc[i].key == key && acc[j].key == key ==>
      acc[i].window == acc[j].window || acc[i].window + c.windowMs <= acc[j].window
  }

  /** The key's windows counted so far are current in the table or have run out. */
  ghost predicate Behind(c: Config, acc: seq<Accept>, t: Table, key: string, now: int) {
    forall i :: 0 <= i < |acc| && acc[i].key == key ==>
      if key in t then acc[i].window == t[key].startedAt || acc[i].window + c.windowMs <= t[key].startedAt
      else acc[i].window + c.windowMs <= now
  }

  ghost predicate Limited(c: Config, acc: seq<Accept>, t: Table, key: string) {
    && (forall w :: CountWindow(acc, key, w) <= c.limit)
    && (key in t ==> CountWindow(acc, key, t[key].startedAt) == if t[key].count < c.limit then t[key].count else c.limit)
  }

  /** What holds of one client while `now` is at least every clock reading so far. */
  ghost predicate Invariant(c: Config, s: State, key: string, now: int) {
    && (key in s.table ==> s.table[key].startedAt <= now)
    && Inside(c, s.accepted, key, now) && Spaced(c, s.accepted, key)
    && Behind(c, s.accepted, s.table, key, now) && Limited(c, s.accepted, s.table, key)
  }

  /** A window nobody has been counted in yet. */
  lemma {:induction false} FreshWindow(acc: seq<Accept>, key: string, start: int)
    requires forall i :: 0 <= i < |acc| && acc[i].key == key ==> acc[i].window != start
    ensures CountWindow(acc, key, start) == 0
  {
    if acc != [] {
      FreshWindow(acc[..|acc| - 1], key, start);
    }
  }

  lemma CountOneMore(acc: seq<Accept>, a: Accept, key: string, start: int)
    ensures CountWindow(acc + [a], key, start) == CountWindow(acc, key, start) + if a.key == key && a.window == start then 1 else 0
  {
    assert (acc + [a])[..|acc|] == acc;
  }

  /** The window a call is counted in, before it is counted. */
  function Current(c: Config, t: Table, key: string, now: int): Window {
    if key in t && now - t[key].startedAt < c.windowMs then t[key] else Window(now, 0)
  }

  /** A call of the key is refused for lack of room, or counted in its current window. */
  lemma OwnCall(c: Config, s: State, call: Call)
    ensures var t := Step(c, s, call); var w := Current(c, s.table, call.key, call.time);
      || (call.key !in s.table && call.key !in t.table && t.accepted == s.accepted)
      || (call.key in t.table && t.table[call.key] == Window(w.startedAt, w.count + 1)
          && t.accepted == if w.count + 1 > c.limit then s.accepted else s.accepted + [Accept(call.key, call.time, w.startedAt)])
  {
  }

  /** A call of another key leaves the client's window, or evicts it when it has run out by that call's reading. */
  lemma OtherCall(c: Config, s: State, call: Call, key: string)
    requires call.key != key
    ensures var t := Step(c, s, call);
      && (key in t.table ==> key in s.table && t.table[key] == s.table[key])
      && (key in s.table && key !in t.table ==> s.table[key].startedAt + c.windowMs <= call.time)
      && (t.accepted == s.accepted || exists a: Accept :: a.key == call.key && t.accepted == s.accepted + [a])
  {
  }

  lemma OwnCallKeeps(c: Config, s: State, call: Call)
    requires c.Accepted() && Invariant(c, s, call.key, call.time)
    ensures Invariant(c, Step(c, s, call), call.key, call.time)
  {
    OwnCall(c, s, call);
    hide Step, CountWindow;
    var t, w := Step(c, s, call), Current(c, s.table, call.key, call.time);
    if call.key in t.table {
      CountedSoFar(c, s, call);
      if t.accepted != s.accepted {
        var a := Accept(call.key, call.time, w.startedAt);
        forall v ensures CountWindow(t.accepted, call.key, v) == CountWindow(s.accepted, call.key, v) + (if v == a.window then 1 else 0) {
          CountOneMore(s.accepted, a, call.key, v);
        }
      }
    }
  }

  /** The window that counts a call has counted the accepted calls it stands for, up to the limit. */
  lemma CountedSoFar(c: Config, s: State, call: Call)
    requires c.Accepted() && Invariant(c, s, call.key, call.time)
    ensures var w := Current(c, s.table, call.key, call.time); CountWindow(s.accepted, call.key, w.startedAt) == if w.count < c.limit then w.count else c.limit
  {
    hide CountWindow, Spaced;
    var w := Current(c, s.table, call.key, call.time);
    if call.key !in s.table || w != s.table[call.key] {
      FreshWindow(s.accepted, call.key, w.startedAt);
    }
  }

  lemma OtherCallKeeps(c: Config, s: State, call: Call, key: string, now: int)
    requires c.Accepted() && Invariant(c, s, key, now) && call.key != key && call.time <= now
    ensures Invariant(c, Step(c, s, call), key, now)
  {
    OtherCall(c, s, call, key);
    hide Step, CountWindow;
    var t := Step(c, s, call);
    if t.accepted != s.accepted {
      var a: Accept :| a.key == call.key && t.accepted == s.accepted + [a];
      forall v ensures CountWindow(t.accepted, key, v) == CountWindow(s.accepted, key, v) {
        CountOneMore(s.accepted, a, key, v);
      }
    }
  }

  lemma Later(c: Config, s: State, key: string, before: int, now: int)
    requires Invariant(c, s, key, before) && before <= now
    ensures Invariant(c, s, key, now)
  {
    hide CountWindow;
  }

  lemma {:induction false} RunKeeps(c: Config, calls: seq<Call>, key: string, now: int)
    requires c.Accepted() && SteadyFor(calls, key) && forall i :: 0 <= i < |calls| ==> calls[i].time <= now
    ensures Invariant(c, Run(c, calls), key, now)
    decreases |calls|
  {
    if calls != [] {
      hide Invariant, Step;
      var front, last := calls[..|calls| - 1], calls[|calls| - 1];
      if last.key == key {
        RunKeeps(c, front, key, last.time);
        OwnCallKeeps(c, Run(c, front), last);
        Later(c, Run(c, calls), key, last.time, now);
      } else {
        RunKeeps(c, front, key, now);
        OtherCallKeeps(c, Run(c, front), last, key, now);
      }
    }
  }

  // ----- refusals -----

  /** The client's window that has not run out, if it has one. */
  predicate InWindow(c: Config, s: State, key: string, now: int) {
    key in s.table && now < s.table[key].startedAt + c.windowMs
  }

  /** Windows of other clients that have not run out take up all the room. */
  ghost predicate NoRoom(c: Config, s: State, now: int) {
    |s.table| >= c.maxKeys && |map k | k in s.table && now < s.table[k].startedAt + c.windowMs :: s.table[k]| >= c.maxKeys
  }

  /**
   Exactly when a call is refused: its client has used up the limit in its running
   window, and is told the first whole second after it; or it is new and there is no
   room. Every other call passes.
   */
  lemma RefusedIff(c: Config, calls: seq<Call>, key: string, now: int)
    requires c.Accepted() && SteadyFor(calls + [Call(key, now)], key)
    ensures var s := Run(c, calls); var outcome := Consumed(c, s.table, key, now).1;
      && (outcome.LimitExceeded? <==> InWindow(c, s, key, now) && CountWindow(s.accepted, key, s.table[key].startedAt) == c.limit)
      && (outcome == TooManyClients <==> key !in s.table && NoRoom(c, s, now))
      && (outcome.LimitExceeded? ==> FirstFreeSecond(c, s, key, now, outcome.retryAfterSeconds))
  {
    var all := calls + [Call(key, now)];
    assert forall i :: 0 <= i < |calls| ==> all[i] == calls[i];
    assert all[|calls|] == Call(key, now);
    RunKeeps(c, calls, key, now);
    var s := Run(c, calls);
    assert (map k | k in s.table && now < s.table[k].startedAt + c.windowMs :: s.table[k]) == EvictExpired(c, s.table, now);
    hide Run, Inside, Spaced, Behind;
  }

  /** The window has run out after that many seconds, and not after one less, unless that is the least a client is told. */
  predicate FirstFreeSecond(c: Config, s: State, key: string, now: int, seconds: int)
    requires key in s.table
  {
    var end := s.table[key].startedAt + c.windowMs;
    seconds >= 1 && end <= now + 1000 * seconds && (seconds > 1 ==> now + 1000 * (seconds - 1) < end)
  }

  // ----- the table's size -----

  function Room(c: Config): nat {
    if c.maxKeys < 0 then 0 else c.maxKeys
  }

  lemma KeptSmaller(a: set<string>, b: set<string>)
    requires a <= b
    ensures |a| <= |b|
  {
    assert b == a + (b - a);
    assert |a + (b - a)| == |a| + |b - a|;
  }

  /** Whatever the clock does, the table never outgrows its bound. */
  lemma {:induction false} TableStaysBounded(c: Config, calls: seq<Call>)
    ensures |Run(c, calls).table| <= Room(c)
  {
    if calls != [] {
      var front, last := calls[..|calls| - 1], calls[|calls| - 1];
      TableStaysBounded(c, front);
      var t := Run(c, front).table;
      hide Run;
      var u := Consumed(c, t, last.key, last.time).0;
      var kept := if |t| >= c.maxKeys then EvictExpired(c, t, last.time) else t;
      KeptSmaller(kept.Keys, t.Keys);
      assert |t| == |t.Keys| && |kept| == |kept.Keys| && |u| == |u.Keys|;
      assert u.Keys == t.Keys || u.Keys == kept.Keys || u.Keys == kept.Keys + {last.key};
    }
  }

  lemma {:induction false} TwoWindowsCover(acc: seq<Accept>, key: string, from: int, width: int, s1: int, s2: int)
    requires forall i :: 0 <= i < |acc| && InInterval(acc[i], key, from, width) ==> acc[i].window == s1 || acc[i].window == s2
    ensures CountInterval(acc, key, from, width) <= CountWindow(acc, key, s1) + CountWindow(acc, key, s2)
  {
    if acc != [] {
      var front := acc[..|acc| - 1];
      forall i | 0 <= i < |front| && InInterval(front[i], key, from, width) ensures front[i].window == s1 || front[i].window == s2 {
        assert front[i] == acc[i];
      }
      TwoWindowsCover(front, key, from, width, s1, s2);
    }
  }

  /**
   For every client whose own readings never fall behind an earlier one, over any call
   history, evictions and re-creations included, every half-open interval one window
   long holds at most twice the limit of its accepted calls.
   */
  lemma AtMostTwiceForSteadyClient(c: Config, calls: seq<Call>, key: string, from: int)
    requires c.Accepted() && SteadyFor(calls, key)
    ensures CountInterval(Run(c, calls).accepted, key, from, c.windowMs) <= 2 * c.limit
  {
    RunKeeps(c, calls, key, Latest(calls));
    var acc := Run(c, calls).accepted;
    hide Run, Limited, Behind;
    if a :| 0 <= a < |acc| && InInterval(acc[a], key, from, c.windowMs) {
      var s1 := acc[a].window;
      var s2 := s1;
      if b :| 0 <= b < |acc| && InInterval(acc[b], key, from, c.windowMs) && acc[b].window != s1 {
        s2 := acc[b].window;
        forall i | 0 <= i < |acc| && InInterval(acc[i], key, from, c.windowMs) ensures acc[i].window == s1 || acc[i].window == s2 {
          Apart(c, acc, key, a, b, i, from);
        }
      }
      TwoWindowsCover(acc, key, from, c.windowMs, s1, s2);
      WithinLimit(c, calls, key, s1, s2);
    } else {
      TwoWindowsCover(acc, key, from, c.windowMs, 0, 0);
      WithinLimit(c, calls, key, 0, 0);
    }
  }

  lemma WithinLimit(c: Config, calls: seq<Call>, key: string, s1: int, s2: int)
    requires c.Accepted() && SteadyFor(calls, key)
    ensures CountWindow(Run(c, calls).accepted, key, s1) <= c.limit && CountWindow(Run(c, calls).accepted, key, s2) <= c.limit
  {
    RunKeeps(c, calls, key, Latest(calls));
    hide Run;
  }

  /** A time no reading is later than. */
  function Latest(calls: seq<Call>): (now: int)
    ensures forall i :: 0 <= i < |calls| ==> calls[i].time <= now
  {
    if calls == [] then 0
    else
      var before, last := Latest(calls[..|calls| - 1]), calls[|calls| - 1].time;
      if before < last then last else before
  }

  /** With a clock that never runs backwards that is every client, and the table stays within its bound. */
  lemma AtMostTwiceTheLimit(c: Config, calls: seq<Call>, key: string, from: int)
    requires c.Accepted() && Monotone(calls)
    ensures CountInterval(Run(c, calls).accepted, key, from, c.windowMs) <= 2 * c.limit
    ensures |Run(c, calls).table| <= Room(c)
  {
    AtMostTwiceForSteadyClient(c, calls, key, from);
    TableStaysBounded(c, calls);
  }

  /** Three different windows of one key cannot all meet an interval one window long. */
  lemma Apart(c: Config, acc: seq<Accept>, key: string, a: nat, b: nat, i: nat, from: int)
    requires a < |acc| && b < |acc| && i < |acc| && acc[a].key == acc[b].key == acc[i].key == key
    requires Spaced(c, acc, key) && forall i :: 0 <= i < |acc| && acc[i].key == key ==> acc[i].window <= acc[i].time < acc[i].window + c.windowMs
    requires from <= acc[a].time < from + c.windowMs && from <= acc[b].time < from + c.windowMs && from <= acc[i].time < from + c.windowMs
    requires acc[a].window != acc[b].window
    ensures acc[i].window == acc[a].window || acc[i].window == acc[b].window
  {
    assert a < b || b < a;
    assert i < a || i == a || i > a;
    assert i < b || i == b || i > b;
  }

  /** The clock must not run backwards: five acceptances in one interval under a limit of two. */
  lemma BackwardClockBreaksTheBound()
    ensures exists c: Config, calls: seq<Call>, from: int ::
      c.Accepted() && CountInterval(Run(c, calls).accepted, "k", from, c.windowMs) > 2 * c.limit
  {
    hide CountInterval, Step, Run;
    var c := Config(2, 1000, 1);
    var times := [1000, 500, 2000, 500, 3000, 500, 4000, 500];
    var calls := seq(8, i requires 0 <= i < 8 => Call("k", times[i]));
    var s := State(map[], []);
    NoCalls(c);
    var n := 0;
    while n < 8
      invariant 0 <= n <= 8 && s == Run(c, calls[..n]) && |s.accepted| == n
      invariant forall i :: 0 <= i < n ==> s.accepted[i].key == "k" && s.accepted[i].time == times[i]
      invariant s.table == if n == 0 then map[] else map["k" := Window(1000 * ((n + 1) / 2), 2 - n % 2)]
    {
      RunPrefix(c, calls, n);
      var time := if n % 2 == 0 then 1000 * (n / 2 + 1) else 500;
      assert times[n] == time;
      BackwardStep(c, s, n, time);
      s := Step(c, s, Call("k", time));
      n := n + 1;
    }
    assert calls[..8] == calls;
    IntervalCount(s.accepted, times);
    assert CountInterval(Run(c, calls).accepted, "k", 500, c.windowMs) > 2 * c.limit;
  }

  lemma NoCalls(c: Config)
    ensures Run(c, []) == State(map[], [])
  {
  }

  lemma RunPrefix(c: Config, calls: seq<Call>, n: nat)
    requires n < |calls|
    ensures Run(c, calls[..n + 1]) == Step(c, Run(c, calls[..n]), calls[n])
  {
    hide Step;
    assert calls[..n + 1][..n] == calls[..n] && calls[..n + 1][n] == calls[n];
  }

  lemma BackwardStep(c: Config, s: State, n: nat, time: int)
    requires c == Config(2, 1000, 1)
    requires time == if n % 2 == 0 then 1000 * (n / 2 + 1) else 500
    requires s.table == if n == 0 then map[] else map["k" := Window(1000 * ((n + 1) / 2), 2 - n % 2)]
    ensures var next := Step(c, s, Call("k", time));
      && next.table == map["k" := Window(1000 * ((n + 2) / 2), 2 - (n + 1) % 2)]
      && next.accepted == s.accepted + [Accept("k", time, 1000 * ((n + 2) / 2))]
  {
  }

  lemma IntervalCount(acc: seq<Accept>, times: seq<int>)
    requires times == [1000, 500, 2000, 500, 3000, 500, 4000, 500]
    requires |acc| == 8 && forall i :: 0 <= i < 8 ==> acc[i].key == "k" && acc[i].time == times[i]
    ensures CountInterval(acc, "k", 500, 1000) == 5
  {
    var n, count := 0, 0;
    while n < 8
      invariant 0 <= n <= 8 && count == CountInterval(acc[..n], "k", 500, 1000)
      invariant count == if n == 0 then 0 else 1 + n / 2
    {
      assert acc[..n + 1][..n] == acc[..n];
      count := count + if InInterval(acc[n], "k", 500, 1000) then 1 else 0;
      n := n + 1;
    }
    assert acc[..8] == acc;
  }
}
