/** The order-frequency kill switch: a sliding window pruned from the front.
    Clock readings are arguments. */
module OrderRate {
  import opened Common

  datatype Tracker = Tracker(maxOrders: int, window: real, times: seq<real>)

  function NewTracker(maxOrders: int, window: real): Tracker {
    Tracker(if maxOrders < 1 then 1 else maxOrders, Max(0.05, window), [])
  }

  /** Drops orders older than the window from the front. */
  function Pruned(ts: seq<real>, now: real, window: real): seq<real> {
    if ts != [] && now - ts[0] > window then Pruned(ts[1..], now, window) else ts
  }

  datatype Event =
    | Check(now: real)                  // asked; permitted when below the limit
    | Record(pruneAt: real, at: real)   // the clock is read twice
    | Status(now: real)

  function Step(t: Tracker, e: Event): Tracker {
    match e
    case Check(now) => t.(times := Pruned(t.times, now, t.window))
    case Record(pruneAt, at) => t.(times := Pruned(t.times, pruneAt, t.window) + [at])
    case Status(now) => t.(times := Pruned(t.times, now, t.window))
  }

  predicate Permits(t: Tracker, now: real) {
    |Pruned(t.times, now, t.window)| < t.maxOrders
  }

  class HardLimitTracker {
    const maxOrders: int
    const window: real
    var orderTimes: seq<real>

    function State(): Tracker
      reads this
    {
      Tracker(maxOrders, window, orderTimes)
    }

    constructor (maxOrders: int, window: real)
      ensures State() == NewTracker(maxOrders, window)
    {
      this.maxOrders := if maxOrders < 1 then 1 else maxOrders;
      this.window := Max(0.05, window);
      orderTimes := [];
    }

    method PruneOrders(now: real)
      modifies this`orderTimes
      ensures orderTimes == Pruned(old(orderTimes), now, window)
    {
      while orderTimes != [] && now - orderTimes[0] > window
        invariant Pruned(orderTimes, now, window) == Pruned(old(orderTimes), now, window)
        decreases |orderTimes|
      {
        orderTimes := orderTimes[1..];
      }
    }

    method CanSubmitOrder(now: real) returns (denied: Option<string>)
      modifies this`orderTimes
      ensures State() == Step(old(State()), Check(now))
      ensures denied == if Permits(old(State()), now) then None else Some("order_rate_exceeded")
    {
      PruneOrders(now);
      if |orderTimes| >= maxOrders {
        return Some("order_rate_exceeded");
      }
      return None;
    }

    method RecordOrder(pruneAt: real, at: real)
      modifies this`orderTimes
      ensures State() == Step(old(State()), Record(pruneAt, at))
    {
      PruneOrders(pruneAt);
      orderTimes := orderTimes + [at];
    }
  }

  // ------------------------------------------------------------------ whole runs

  // A tracker with its past: every order ever recorded, the latest clock
  // reading, and whether a permitted check is waiting to be used.
  datatype Past = Past(tracker: Tracker, orders: seq<real>, clock: real, cleared: bool)

  /** Events in clock order, each recorded order following its own permitted check. */
  predicate Allowed(p: Past, e: Event) {
    match e
    case Check(now) => p.clock <= now
    case Record(pruneAt, at) => p.clock <= pruneAt <= at && p.cleared
    case Status(now) => p.clock <= now
  }

  function Advance(p: Past, e: Event): Past {
    match e
    case Check(now) => Past(Step(p.tracker, e), p.orders, now, Permits(p.tracker, now))
    case Record(_, at) => Past(Step(p.tracker, e), p.orders + [at], at, false)
    case Status(now) => p.(tracker := Step(p.tracker, e), clock := now)
  }

  predicate AllowedRun(p: Past, es: seq<Event>)
    decreases es
  {
    es == [] || (Allowed(p, es[0]) && AllowedRun(Advance(p, es[0]), es[1..]))
  }

  function After(p: Past, es: seq<Event>): Past
    decreases es
  {
    if es == [] then p else After(Advance(p, es[0]), es[1..])
  }

  predicate Ordered(ts: seq<real>) {
    forall i, j :: 0 <= i < j < |ts| ==> ts[i] <= ts[j]
  }

  /** Orders no further apart than the window are at most `max` in a row. */
  predicate NoBurst(orders: seq<real>, window: real, max: int) {
    forall i, j :: 0 <= i <= j < |orders| && orders[j] - orders[i] <= window ==> j - i + 1 <= max
  }

  predicate IsSuffix(ts: seq<real>, orders: seq<real>) {
    |ts| <= |orders| && ts == orders[|orders| - |ts|..]
  }

  /** The first `n` orders are outside the window at `clock`. */
  predicate Expired(orders: seq<real>, n: int, clock: real, window: real) {
    forall k :: 0 <= k < n && k < |orders| ==> clock - orders[k] > window
  }

  predicate Inv(p: Past) {
    && p.tracker.maxOrders >= 1
    && IsSuffix(p.tracker.times, p.orders)
    && Ordered(p.orders) && (forall k :: 0 <= k < |p.orders| ==> p.orders[k] <= p.clock)
    && Expired(p.orders, |p.orders| - |p.tracker.times|, p.clock, p.tracker.window)
    && (p.cleared ==> |p.tracker.times| < p.tracker.maxOrders)
    && NoBurst(p.orders, p.tracker.window, p.tracker.maxOrders)
  }

  /** On a sorted sequence, pruning from the front removes exactly what is too old. */
  lemma {:induction false} PrunedIsSuffix(ts: seq<real>, now: real, window: real)
    requires Ordered(ts)
    ensures var r := Pruned(ts, now, window);
      && |r| <= |ts| && r == ts[|ts| - |r|..]
      && (forall k :: 0 <= k < |ts| - |r| ==> now - ts[k] > window)
      && (forall k :: |ts| - |r| <= k < |ts| ==> now - ts[k] <= window)
  {
    if ts != [] && now - ts[0] > window {
      PrunedIsSuffix(ts[1..], now, window);
      var r := Pruned(ts, now, window);
      assert ts[1..][|ts| - 1 - |r|..] == ts[|ts| - |r|..];
      forall k | 0 <= k < |ts| - |r|
        ensures now - ts[k] > window
      {
        assert k > 0 ==> ts[k] == ts[1..][k - 1];
      }
      forall k | |ts| - |r| <= k < |ts|
        ensures now - ts[k] <= window
      {
        assert ts[k] == ts[1..][k - 1];
      }
    }
  }

  lemma {:induction false} PruneWithin(orders: seq<real>, ts: seq<real>, clock: real, now: real, window: real)
    requires IsSuffix(ts, orders) && Ordered(orders) && clock <= now
    requires Expired(orders, |orders| - |ts|, clock, window)
    ensures var r := Pruned(ts, now, window);
      && |r| <= |ts| && IsSuffix(r, orders) && Expired(orders, |orders| - |r|, now, window)
      && forall k :: |orders| - |r| <= k < |orders| ==> now - orders[k] <= window
  {
    var gone := |orders| - |ts|;
    PrunedIsSuffix(ts, now, window);
    var r := Pruned(ts, now, window);
    assert ts[|ts| - |r|..] == orders[|orders| - |r|..];
    forall k | 0 <= k < |orders|
      ensures k < |orders| - |r| <==> now - orders[k] > window
    {
      if k >= gone {
        assert orders[k] == ts[k - gone];
      } else {
        assert clock - orders[k] > window;
      }
    }
  }

  lemma {:induction false} PruneKeepsInv(p: Past, now: real, e: Event)
    requires Inv(p) && p.clock <= now && (e == Check(now) || e == Status(now))
    ensures Inv(Advance(p, e))
  {
    hide Pruned;
    PruneWithin(p.orders, p.tracker.times, p.clock, now, p.tracker.window);
  }

  /** A new order within the window of older ones only meets tracked orders. */
  lemma {:induction false} NoBurstAppend(orders: seq<real>, ts: seq<real>, clock: real, at: real, window: real,
                                         max: int)
    requires NoBurst(orders, window, max) && Ordered(orders) && clock <= at && |ts| < max && IsSuffix(ts, orders)
    requires Expired(orders, |orders| - |ts|, clock, window)
    ensures NoBurst(orders + [at], window, max)
  {
  }

  /** A permitted order cannot complete a burst: everything within the window of
      it is still tracked, and that is fewer than the limit. */
  lemma {:induction false} RecordKeepsInv(p: Past, pruneAt: real, at: real)
    requires Inv(p) && Allowed(p, Record(pruneAt, at))
    ensures Inv(Advance(p, Record(pruneAt, at)))
  {
    hide Pruned;
    var w := p.tracker.window;
    PruneWithin(p.orders, p.tracker.times, p.clock, pruneAt, w);
    var r := Pruned(p.tracker.times, pruneAt, w);
    NoBurstAppend(p.orders, r, pruneAt, at, w, p.tracker.maxOrders);
    var all, gone := p.orders + [at], |p.orders| - |r|;
    assert all[gone..] == p.orders[gone..] + [at];
    assert IsSuffix(r + [at], all);
    forall k | 0 <= k < gone
      ensures at - all[k] > w
    {
      assert all[k] == p.orders[k];
    }
  }

  lemma {:induction false} RunKeepsInv(p: Past, es: seq<Event>)
    requires Inv(p) && AllowedRun(p, es)
    ensures Inv(After(p, es))
    ensures After(p, es).tracker.window == p.tracker.window && After(p, es).tracker.maxOrders == p.tracker.maxOrders
    decreases es
  {
    if es != [] {
      match es[0] {
        case Check(now) => PruneKeepsInv(p, now, es[0]);
        case Record(pruneAt, at) => RecordKeepsInv(p, pruneAt, at);
        case Status(now) => PruneKeepsInv(p, now, es[0]);
      }
      RunKeepsInv(Advance(p, es[0]), es[1..]);
    }
  }

  // ------------------------------------------------------------------ main results

  /** How many orders fall into a closed interval. */
  function CountIn(orders: seq<real>, from: real, to: real): nat {
    if orders == [] then 0
    else CountIn(orders[..|orders| - 1], from, to) + if from <= orders[|orders| - 1] <= to then 1 else 0
  }

  lemma {:induction false} CountFrom(orders: seq<real>, from: real, to: real, low: nat)
    requires low <= |orders|
    requires forall k :: 0 <= k < low ==> !(from <= orders[k] <= to)
    ensures CountIn(orders, from, to) <= |orders| - low
  {
    if |orders| > low {
      CountFrom(orders[..|orders| - 1], from, to, low);
    } else if orders != [] {
      CountFrom(orders[..|orders| - 1], from, to, low - 1);
    }
  }

  lemma {:induction false} IntervalsAreBounded(orders: seq<real>, window: real, max: int, from: real)
    requires max >= 1 && Ordered(orders) && NoBurst(orders, window, max)
    ensures CountIn(orders, from, from + window) <= max
  {
    if orders != [] {
      var n := |orders|;
      if from <= orders[n - 1] <= from + window {
        var low := if n < max then 0 else n - max;
        forall k | 0 <= k < low
          ensures !(from <= orders[k] <= from + window)
        {
          var last := n - 1;
          assert orders[last] - orders[k] <= window ==> last - k + 1 <= max;
        }
        CountFrom(orders, from, from + window, low);
      } else {
        IntervalsAreBounded(orders[..n - 1], window, max, from);
      }
    }
  }

  /** In the whole history of a tracker, no closed interval as long as the window
      holds more orders than the limit. */
  lemma {:induction false} RateNeverExceeded(maxOrders: int, window: real, start: real, es: seq<Event>, from: real)
    requires AllowedRun(Past(NewTracker(maxOrders, window), [], start, false), es)
    ensures var p := After(Past(NewTracker(maxOrders, window), [], start, false), es);
      CountIn(p.orders, from, from + Max(0.05, window)) <= if maxOrders < 1 then 1 else maxOrders
  {
    var p0 := Past(NewTracker(maxOrders, window), [], start, false);
    RunKeepsInv(p0, es);
    var p := After(p0, es);
    IntervalsAreBounded(p.orders, p.tracker.window, p.tracker.maxOrders, from);
  }

  lemma {:induction false} CountSuffix(orders: seq<real>, from: real, to: real, low: nat)
    requires low <= |orders|
    requires forall k :: 0 <= k < |orders| ==> (from <= orders[k] <= to <==> k >= low)
    ensures CountIn(orders, from, to) == |orders| - low
  {
    if |orders| > low {
      CountSuffix(orders[..|orders| - 1], from, to, low);
    } else if orders != [] {
      CountSuffix(orders[..|orders| - 1], from, to, low - 1);
    }
  }

  /** A check permits an order exactly when fewer orders than the limit, of all ever
      recorded, lie within the window up to now. */
  lemma {:induction false} PermitsExactly(maxOrders: int, window: real, start: real, es: seq<Event>, now: real)
    requires AllowedRun(Past(NewTracker(maxOrders, window), [], start, false), es)
    requires After(Past(NewTracker(maxOrders, window), [], start, false), es).clock <= now
    ensures var p := After(Past(NewTracker(maxOrders, window), [], start, false), es);
      Permits(p.tracker, now)
      <==> CountIn(p.orders, now - Max(0.05, window), now) < if maxOrders < 1 then 1 else maxOrders
  {
    var p0 := Past(NewTracker(maxOrders, window), [], start, false);
    RunKeepsInv(p0, es);
    var p := After(p0, es);
    hide Pruned, After;
    PruneWithin(p.orders, p.tracker.times, p.clock, now, p.tracker.window);
    var low := |p.orders| - |Pruned(p.tracker.times, now, p.tracker.window)|;
    assert forall k :: 0 <= k < low ==> now - p.orders[k] > p.tracker.window;
    CountSuffix(p.orders, now - p.tracker.window, now, low);
  }

  /** Right after a check the tracker holds exactly the orders of the whole
      history that lie within the window. */
  lemma {:induction false} CheckKeepsTheWindow(maxOrders: int, window: real, start: real, es: seq<Event>, now: real,
                                               k: nat)
    requires AllowedRun(Past(NewTracker(maxOrders, window), [], start, false), es)
    requires After(Past(NewTracker(maxOrders, window), [], start, false), es).clock <= now
    requires k < |After(Past(NewTracker(maxOrders, window), [], start, false), es).orders|
    ensures var p := After(Past(NewTracker(maxOrders, window), [], start, false), es);
      var kept := Pruned(p.tracker.times, now, p.tracker.window);
      && |kept| <= |p.orders| && kept == p.orders[|p.orders| - |kept|..]
      && (now - p.orders[k] <= p.tracker.window <==> k >= |p.orders| - |kept|)
  {
    var p0 := Past(NewTracker(maxOrders, window), [], start, false);
    RunKeepsInv(p0, es);
    var p := After(p0, es);
    hide Pruned;
    PruneWithin(p.orders, p.tracker.times, p.clock, now, p.tracker.window);
  }

  /** Without the check the limit means nothing: recording alone never refuses. */
  lemma {:induction false} UncheckedOrdersBurst()
    ensures var t := Step(Step(NewTracker(1, 1.0), Record(0.0, 0.0)), Record(0.0, 0.0));
      |t.times| == 2 && t.maxOrders == 1
  {
  }
}
