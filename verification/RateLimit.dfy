/** The fixed-window counters kept in Redis: INCR, and EXPIRE when the count becomes 1.
    Rings are counted even when refused; failed second-factor checks are refused, and not
    counted, once the counter has reached its limit. */
module RateLimit {
  import opened Common

  const CALL_RING_MAX := 6     // per (caller, callee) pair
  const GUEST_RING_MAX := 4    // per secret-link thread
  const RING_WINDOW := 60
  const MAX_FAILS := 10        // second-factor failures per account
  const FAIL_WINDOW := 900

  /** A counter key; it does not exist from `until` on. */
  datatype Window = Window(count: nat, until: int)

  function Live(w: Window, now: int): nat { if now < w.until then w.count else 0 }

  function Incr(w: Window, now: int, len: nat): Window {
    if now < w.until && w.count > 0 then Window(w.count + 1, w.until) else Window(1, now + len)
  }

  datatype Policy = CountAll | StopAtLimit

  function Hit(p: Policy, w: Window, now: int, len: nat, max: nat): (bool, Window) {
    match p
    case CountAll => var n := Incr(w, now, len); (n.count <= max, n)
    case StopAtLimit => if Live(w, now) >= max then (false, w) else (true, Incr(w, now, len))
  }

  /** INCR, and EXPIRE when the count becomes 1. */
  method Bump(w: Option<Window>, now: int, len: nat) returns (n: Window)
    ensures n == Incr(if w.Some? then w.value else Window(0, now), now, len)
  {
    if w.Some? && now < w.value.until && w.value.count > 0 {
      n := Window(w.value.count + 1, w.value.until);
    } else {
      n := Window(1, now + len);
    }
  }

  class Counter {
    const len: nat
    const max: nat
    var key: Option<Window>

    ghost predicate Valid() reads this { key.Some? ==> key.value.count > 0 }

    /** An absent key behaves as a window that is already over. */
    ghost function View(now: int): Window reads this {
      if key.Some? && now < key.value.until then key.value else Window(0, now)
    }

    constructor (len: nat, max: nat)
      ensures this.len == len && this.max == max && key == None && Valid()
    {
      this.len, this.max, key := len, max, None;
    }

    method Increment(now: int) returns (n: nat)
      requires Valid()
      modifies `key
      ensures Valid() && key == Some(Incr(old(View(now)), now, len)) && n == key.value.count
    {
      var w := Bump(key, now, len);
      key := Some(w);
      n := w.count;
    }

    /** _ring_allowed, both variants. */
    method RingAllowed(now: int) returns (ok: bool)
      requires Valid()
      modifies `key
      ensures Valid() && key.Some? && (ok, key.value) == Hit(CountAll, old(View(now)), now, len, max)
    {
      var n := Increment(now);
      ok := n <= max;
    }

    method Locked(now: int) returns (locked: bool)
      ensures locked <==> Live(View(now), now) >= max
    {
      var n := if key.Some? && now < key.value.until then key.value.count else 0;
      locked := n >= max;
    }

    /** assert_not_locked followed, on a wrong code, by record_failure. */
    method FailedCheck(now: int) returns (performed: bool)
      requires Valid() && len > 0
      modifies `key
      ensures Valid()
      ensures (performed, View(now)) == Hit(StopAtLimit, old(View(now)), now, len, max)
    {
      var locked := Locked(now);
      performed := !locked;
      if performed {
        var _ := Increment(now);
      }
    }

    method Clear(now: int)
      modifies `key
      ensures Valid() && View(now) == Window(0, now)
    {
      key := None;
    }
  }

  // ---------- traces of attempts ----------

  predicate Sorted(ts: seq<int>) { forall i, j :: 0 <= i < j < |ts| ==> ts[i] <= ts[j] }

  /** The times of the attempts that were let through. */
  function Through(p: Policy, w: Window, ts: seq<int>, len: nat, max: nat): seq<int>
    decreases |ts|
  {
    if ts == [] then []
    else
      var (ok, w') := Hit(p, w, ts[0], len, max);
      (if ok then [ts[0]] else []) + Through(p, w', ts[1..], len, max)
  }

  function Within(ts: seq<int>, from: int, to: int): nat {
    if ts == [] then 0
    else (if from <= ts[0] <= to then 1 else 0) + Within(ts[1..], from, to)
  }

  lemma {:induction false} WithinCons(t: int, ok: bool, rest: seq<int>, from: int, to: int)
    ensures Within((if ok then [t] else []) + rest, from, to) ==
            (if ok && from <= t <= to then 1 else 0) + Within(rest, from, to)
  {
    assert [] + rest == rest;
    assert ([t] + rest)[1..] == rest;
  }

  function Left(w: Window, max: nat): nat { if w.count < max then max - w.count else 0 }

  lemma SortedTail(ts: seq<int>)
    requires Sorted(ts) && ts != []
    ensures Sorted(ts[1..]) && forall i :: 0 <= i < |ts[1..]| ==> ts[0] <= ts[1..][i]
  {}

  /** Before the current window ends, no more than its remaining budget gets through. */
  lemma {:induction false} BudgetOfOneWindow(p: Policy, w: Window, ts: seq<int>, len: nat, max: nat, from: int, to: int)
    requires Sorted(ts) && to < w.until && w.count > 0
    ensures Within(Through(p, w, ts, len, max), from, to) <= Left(w, max)
    decreases |ts|
  {
    if ts != [] {
      var (ok, w') := Hit(p, w, ts[0], len, max);
      var rest := Through(p, w', ts[1..], len, max);
      SortedTail(ts);
      WithinCons(ts[0], ok, rest, from, to);
      if ts[0] <= to {
        BudgetOfOneWindow(p, w', ts[1..], len, max, from, to);
      } else {
        NothingBefore(p, w', ts[1..], len, max, from, to);
      }
    }
  }

  lemma {:induction false} NothingBefore(p: Policy, w: Window, ts: seq<int>, len: nat, max: nat, from: int, to: int)
    requires Sorted(ts) && forall i :: 0 <= i < |ts| ==> to < ts[i]
    ensures Within(Through(p, w, ts, len, max), from, to) == 0
    decreases |ts|
  {
    if ts != [] {
      var (ok, w') := Hit(p, w, ts[0], len, max);
      SortedTail(ts);
      WithinCons(ts[0], ok, Through(p, w', ts[1..], len, max), from, to);
      NothingBefore(p, w', ts[1..], len, max, from, to);
    }
  }

  /** Up to one window length past the end of the current window: its budget plus one more. */
  lemma {:induction false} BudgetOfTwoWindows(p: Policy, w: Window, ts: seq<int>, len: nat, max: nat, from: int,
      to: int)
    requires Sorted(ts) && to < w.until + len && w.count > 0 && max > 0
    ensures Within(Through(p, w, ts, len, max), from, to) <= Left(w, max) + max
    decreases |ts|
  {
    if ts != [] {
      var (ok, w') := Hit(p, w, ts[0], len, max);
      var rest := Through(p, w', ts[1..], len, max);
      SortedTail(ts);
      WithinCons(ts[0], ok, rest, from, to);
      if ts[0] > to {
        NothingBefore(p, w', ts[1..], len, max, from, to);
      } else if ts[0] < w.until {
        BudgetOfTwoWindows(p, w', ts[1..], len, max, from, to);
      } else {
        BudgetOfOneWindow(p, w', ts[1..], len, max, from, to);
      }
    }
  }

  /** In any interval of one window length, closed at both ends, at most twice the limit
      gets through, whatever the counter held before. */
  lemma {:induction false} AtMostTwiceTheLimit(p: Policy, w: Window, ts: seq<int>, len: nat, max: nat, from: int)
    requires Sorted(ts) && len > 0 && max > 0
    ensures Within(Through(p, w, ts, len, max), from, from + len) <= 2 * max
    decreases |ts|
  {
    if ts != [] {
      var to := from + len;
      var (ok, w') := Hit(p, w, ts[0], len, max);
      var rest := Through(p, w', ts[1..], len, max);
      SortedTail(ts);
      WithinCons(ts[0], ok, rest, from, to);
      if ts[0] < from {
        AtMostTwiceTheLimit(p, w', ts[1..], len, max, from);
      } else if ts[0] > to {
        NothingBefore(p, w', ts[1..], len, max, from, to);
      } else {
        BudgetOfTwoWindows(p, w', ts[1..], len, max, from, to);
      }
    }
  }

  function Times(t: int, n: nat): seq<int> { if n == 0 then [] else [t] + Times(t, n - 1) }

  lemma {:induction false} TimesAll(t: int, n: nat)
    ensures |Times(t, n)| == n && forall i :: 0 <= i < n ==> Times(t, n)[i] == t
  {
    if n > 0 { TimesAll(t, n - 1); }
  }

  lemma ThroughCons(p: Policy, w: Window, t: int, rest: seq<int>, len: nat, max: nat)
    ensures var (ok, w') := Hit(p, w, t, len, max);
            Through(p, w, [t] + rest, len, max) == (if ok then [t] else []) + Through(p, w', rest, len, max)
  {
    assert ([t] + rest)[1..] == rest;
  }

  /** n attempts at one instant, all within the budget of the open window. */
  lemma {:induction false} Burst(p: Policy, w: Window, t: int, n: nat, more: seq<int>, len: nat, max: nat, from: int,
      to: int)
    requires from <= t <= to && t < w.until && 0 < w.count && w.count + n <= max
    ensures Within(Through(p, w, Times(t, n) + more, len, max), from, to) ==
            n + Within(Through(p, Window(w.count + n, w.until), more, len, max), from, to)
    decreases n
  {
    if n == 0 {
      assert Times(t, n) + more == more;
    } else {
      var rest := Times(t, n - 1) + more;
      assert Times(t, n) + more == [t] + rest;
      var w' := Window(w.count + 1, w.until);
      assert Hit(p, w, t, len, max) == (true, w');
      ThroughCons(p, w, t, rest, len, max);
      WithinCons(t, true, Through(p, w', rest, len, max), from, to);
      Burst(p, w', t, n - 1, more, len, max, from, to);
    }
  }

  /** One attempt opens a window, the rest of its budget goes at its last instant, and a
      full budget at the first instant of the next. */
  function Straddle(from: int, len: nat, max: nat): seq<int>
    requires max > 0
  {
    [from] + (Times(from + len - 1, max - 1) + ([from + len] + Times(from + len, max - 1)))
  }

  lemma StraddleSorted(from: int, len: nat, max: nat)
    requires max > 0 && len > 0
    ensures Sorted(Straddle(from, len, max))
  {
    TimesAll(from + len - 1, max - 1);
    TimesAll(from + len, max - 1);
  }

  /** A full budget at one instant, starting with the attempt that opens the window. */
  lemma FreshBurst(p: Policy, w: Window, t: int, more: seq<int>, len: nat, max: nat, from: int, to: int)
    requires len > 0 && max > 0 && from <= t <= to && w.until <= t
    ensures Within(Through(p, w, [t] + (Times(t, max - 1) + more), len, max), from, to) ==
            max + Within(Through(p, Window(max, t + len), more, len, max), from, to)
  {
    var w1, rest := Window(1, t + len), Times(t, max - 1) + more;
    assert Hit(p, w, t, len, max) == (true, w1);
    ThroughCons(p, w, t, rest, len, max);
    WithinCons(t, true, Through(p, w1, rest, len, max), from, to);
    Burst(p, w1, t, max - 1, more, len, max, from, to);
  }

  /** The bound of AtMostTwiceTheLimit is attained. */
  lemma TwiceTheLimitIsReached(p: Policy, from: int, len: nat, max: nat)
    requires len > 0 && max > 0
    ensures Sorted(Straddle(from, len, max))
    ensures Within(Through(p, Window(0, from), Straddle(from, len, max), len, max), from, from + len) == 2 * max
  {
    StraddleSorted(from, len, max);
    var to := from + len;
    var second := [to] + (Times(to, max - 1) + []);
    assert Times(to, max - 1) + [] == Times(to, max - 1);
    var rest := Times(to - 1, max - 1) + second;
    var w1 := Window(1, to);
    assert Hit(p, Window(0, from), from, len, max) == (true, w1);
    ThroughCons(p, Window(0, from), from, rest, len, max);
    WithinCons(from, true, Through(p, w1, rest, len, max), from, to);
    Burst(p, w1, to - 1, max - 1, second, len, max, from, to);
    FreshBurst(p, Window(max, to), to, [], len, max, from, to);
  }

  /** The bounds of the three counters. */
  lemma CounterBounds(w: Window, ts: seq<int>, from: int)
    requires Sorted(ts)
    ensures Within(Through(CountAll, w, ts, RING_WINDOW, CALL_RING_MAX), from, from + 60) <= 12
    ensures Within(Through(CountAll, w, ts, RING_WINDOW, GUEST_RING_MAX), from, from + 60) <= 8
    ensures Within(Through(StopAtLimit, w, ts, FAIL_WINDOW, MAX_FAILS), from, from + 900) <= 20
  {
    AtMostTwiceTheLimit(CountAll, w, ts, RING_WINDOW, CALL_RING_MAX, from);
    AtMostTwiceTheLimit(CountAll, w, ts, RING_WINDOW, GUEST_RING_MAX, from);
    AtMostTwiceTheLimit(StopAtLimit, w, ts, FAIL_WINDOW, MAX_FAILS, from);
  }

  /** And each of the three is reached, by attempts in time order. */
  lemma CounterBoundsAreReached(from: int) returns (calls: seq<int>, links: seq<int>, checks: seq<int>)
    ensures Sorted(calls) && Sorted(links) && Sorted(checks)
    ensures Within(Through(CountAll, Window(0, from), calls, RING_WINDOW, CALL_RING_MAX), from, from + 60) == 12
    ensures Within(Through(CountAll, Window(0, from), links, RING_WINDOW, GUEST_RING_MAX), from, from + 60) == 8
    ensures Within(Through(StopAtLimit, Window(0, from), checks, FAIL_WINDOW, MAX_FAILS), from, from + 900) == 20
  {
    calls := Straddle(from, RING_WINDOW, CALL_RING_MAX);
    links := Straddle(from, RING_WINDOW, GUEST_RING_MAX);
    checks := Straddle(from, FAIL_WINDOW, MAX_FAILS);
    TwiceTheLimitIsReached(CountAll, from, RING_WINDOW, CALL_RING_MAX);
    TwiceTheLimitIsReached(CountAll, from, RING_WINDOW, GUEST_RING_MAX);
    TwiceTheLimitIsReached(StopAtLimit, from, FAIL_WINDOW, MAX_FAILS);
  }

  /** An attempt, exactly: rings are counted whether or not they get through, checks only while they do;
      an absent or lapsed counter starts at 1 with a full window. */
  lemma HitCounts(w: Window, now: int, len: nat, max: nat)
    ensures var n := if now < w.until && w.count > 0 then Window(w.count + 1, w.until) else Window(1, now + len);
            var live := if now < w.until then w.count else 0;
            && Hit(CountAll, w, now, len, max) == (n.count <= max, n)
            && Hit(StopAtLimit, w, now, len, max) == if live < max then (true, n) else (false, w)
  {}
}
