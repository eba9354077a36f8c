/** The per-symbol circuit breaker and the retry loop that drives it. */
module CircuitBreaking {
  import opened Common

  datatype Breaker = Breaker(failures: int, threshold: int, recovery: real, lastFailure: real, open: bool)

  function NewBreaker(threshold: int, recovery: real): Breaker {
    Breaker(0, threshold, recovery, 0.0, false)
  }

  function Fail(b: Breaker, now: real): Breaker {
    b.(failures := b.failures + 1, lastFailure := now, open := b.open || b.failures + 1 >= b.threshold)
  }

  function Succeed(b: Breaker): Breaker {
    b.(failures := 0, open := false)
  }

  /** The half-open transition: one trial is allowed once the wait is over. */
  predicate HalfOpens(b: Breaker, now: real) {
    b.open && now - b.lastFailure > b.recovery
  }

  predicate Proceeds(b: Breaker, now: real) {
    !b.open || HalfOpens(b, now)
  }

  function Ask(b: Breaker, now: real): Breaker {
    if HalfOpens(b, now) then b.(open := false, failures := if b.failures > 0 then b.failures - 1 else 0) else b
  }

  datatype Event = Failed(now: real) | Succeeded | Asked(now: real)

  function Step(b: Breaker, e: Event): Breaker {
    match e
    case Failed(now) => Fail(b, now)
    case Succeeded => Succeed(b)
    case Asked(now) => Ask(b, now)
  }

  function Run(b: Breaker, es: seq<Event>): Breaker {
    if es == [] then b else Step(Run(b, es[..|es| - 1]), es[|es| - 1])
  }

  class CircuitBreaker {
    const threshold: int
    const recoveryTime: real
    var failures: int
    var lastFailureTime: real
    var isOpen: bool

    function State(): Breaker
      reads this
    {
      Breaker(failures, threshold, recoveryTime, lastFailureTime, isOpen)
    }

    constructor (failureThreshold: int, recoveryTime: real)
      ensures State() == NewBreaker(failureThreshold, recoveryTime)
    {
      threshold, this.recoveryTime := failureThreshold, recoveryTime;
      failures, lastFailureTime, isOpen := 0, 0.0, false;
    }

    method RecordFailure(now: real)
      modifies this
      ensures State() == Fail(old(State()), now)
    {
      failures := failures + 1;
      lastFailureTime := now;
      if failures >= threshold {
        isOpen := true;
      }
    }

    method RecordSuccess()
      modifies this
      ensures State() == Succeed(old(State()))
    {
      failures := 0;
      isOpen := false;
    }

    method CanProceed(now: real) returns (ok: bool)
      modifies this
      ensures ok <==> Proceeds(old(State()), now)
      ensures State() == Ask(old(State()), now)
    {
      if !isOpen {
        return true;
      }
      if now - lastFailureTime > recoveryTime {
        isOpen := false;
        failures := if failures - 1 > 0 then failures - 1 else 0;
        return true;
      }
      return false;
    }
  }

  // ----------------------------------------------------------------- history

  /** Failures since the last success. */
  function FailuresSince(es: seq<Event>): nat {
    if es == [] then 0
    else
      match es[|es| - 1]
      case Failed(_) => FailuresSince(es[..|es| - 1]) + 1
      case Succeeded => 0
      case Asked(_) => FailuresSince(es[..|es| - 1])
  }

  /** Half-open transitions since the last success. */
  function TrialsSince(b: Breaker, es: seq<Event>): nat {
    if es == [] then 0
    else
      match es[|es| - 1]
      case Failed(_) => TrialsSince(b, es[..|es| - 1])
      case Succeeded => 0
      case Asked(now) => TrialsSince(b, es[..|es| - 1]) + if HalfOpens(Run(b, es[..|es| - 1]), now) then 1 else 0
  }

  /** The time of the latest failure, if any. */
  function LatestFailure(es: seq<Event>): Option<real> {
    if es == [] then None
    else if es[|es| - 1].Failed? then Some(es[|es| - 1].now)
    else LatestFailure(es[..|es| - 1])
  }

  /** What the counter means on every run: failures since the last success less
      the trials granted since then. An open breaker has reached its threshold;
      once tried, it stays one failure away from opening again. */
  lemma {:induction false} CounterMeaning(threshold: int, recovery: real, es: seq<Event>)
    requires threshold >= 1
    ensures var b0 := NewBreaker(threshold, recovery);
      var b := Run(b0, es);
      && b.threshold == threshold && b.recovery == recovery
      && b.failures == FailuresSince(es) - TrialsSince(b0, es) >= 0
      && (b.open ==> b.failures >= threshold)
      && (!b.open && TrialsSince(b0, es) == 0 ==> b.failures < threshold)
      && (TrialsSince(b0, es) > 0 ==> b.failures >= threshold - 1)
      && b.lastFailure == LatestFailure(es).GetOr(0.0)
  {
    if es != [] {
      CounterMeaning(threshold, recovery, es[..|es| - 1]);
    }
  }

  /** After a trial, the very next failure reopens the breaker, however often it
      was asked in between. */
  lemma {:induction false} FailedTrialReopens(threshold: int, recovery: real, es: seq<Event>, now: real)
    requires threshold >= 1 && TrialsSince(NewBreaker(threshold, recovery), es) > 0
    ensures Fail(Run(NewBreaker(threshold, recovery), es), now).open
  {
    CounterMeaning(threshold, recovery, es);
  }

  /** The latest failure of a history that began with breaker `b`. */
  function LastFailure(b: Breaker, es: seq<Event>): real {
    LatestFailure(es).GetOr(b.lastFailure)
  }

  /** Without a success, an open breaker answers no, and stays open, as long as no call
      comes later than `recovery` after the latest failure so far; the first call
      that does is let through. */
  lemma {:induction false} BlockedUntilRecovery(b: Breaker, es: seq<Event>, now: real)
    requires b.open
    requires forall i :: 0 <= i < |es| ==> !es[i].Succeeded?
    requires forall i :: 0 <= i < |es| && es[i].Asked? ==>
      es[i].now - LastFailure(b, es[..i]) <= b.recovery
    ensures Run(b, es).open && Run(b, es).recovery == b.recovery
    ensures Run(b, es).lastFailure == LastFailure(b, es)
    ensures forall i :: 0 <= i < |es| && es[i].Asked? ==> !Proceeds(Run(b, es[..i]), es[i].now)
    ensures Proceeds(Run(b, es), now) <==> now - LastFailure(b, es) > b.recovery
  {
    if es != [] {
      var n := |es| - 1;
      var init := es[..n];
      assert forall i :: 0 <= i < n ==> init[i] == es[i] && init[..i] == es[..i];
      BlockedUntilRecovery(b, init, now);
      assert es[n].Asked? ==> es[n].now - LastFailure(b, es[..n]) <= b.recovery;
      forall i | 0 <= i < |es| && es[i].Asked?
        ensures !Proceeds(Run(b, es[..i]), es[i].now)
      {
        if i < n {
          assert init[i] == es[i] && init[..i] == es[..i];
        }
      }
    }
  }

  // --------------------------------------------------------------- retry loop

  // One attempt: whether the exchange answered, and the clock when it failed.
  datatype Attempt = Attempt(ok: bool, now: real)

  /** What the attempts of one fetch report to the breaker: failures up to the
      first success, at most `retries` of them. */
  function Reports(attempts: seq<Attempt>, retries: nat): seq<Event>
    requires |attempts| >= retries
  {
    if retries == 0 then []
    else if attempts[0].ok then [Succeeded]
    else [Failed(attempts[0].now)] + Reports(attempts[1..], retries - 1)
  }

  function RunForward(b: Breaker, es: seq<Event>): Breaker
    decreases es
  {
    if es == [] then b else RunForward(Step(b, es[0]), es[1..])
  }

  lemma {:induction false} ForwardIsRun(b: Breaker, es: seq<Event>)
    ensures RunForward(b, es) == Run(b, es)
    decreases |es|
  {
    if |es| == 1 {
      assert es[1..] == [] && es[..0] == [];
    } else if |es| > 1 {
      var mid := es[1..|es| - 1];
      assert es[1..][..|es| - 2] == mid && es[..|es| - 1][1..] == mid;
      ForwardIsRun(Step(b, es[0]), es[1..]);
      ForwardIsRun(Step(b, es[0]), mid);
      ForwardIsRun(b, es[..|es| - 1]);
      assert RunForward(b, es[..|es| - 1]) == RunForward(Step(b, es[0]), mid);
    }
  }

  /** One fetch: nothing when blocked, otherwise up to `retries` attempts. The
      breaker is not asked again between attempts. */
  method FetchOne(breaker: CircuitBreaker, retries: nat, now: real, attempts: seq<Attempt>) returns (answered: bool)
    requires |attempts| >= retries
    modifies breaker
    ensures breaker.State() ==
      if Proceeds(old(breaker.State()), now)
      then RunForward(Ask(old(breaker.State()), now), Reports(attempts, retries))
      else old(breaker.State())
    ensures answered <==> Proceeds(old(breaker.State()), now) && exists i :: 0 <= i < retries && attempts[i].ok
  {
    var ok := breaker.CanProceed(now);
    if !ok {
      return false;
    }
    ghost var b := breaker.State();
    for attempt := 0 to retries
      invariant forall i :: 0 <= i < attempt ==> !attempts[i].ok
      invariant RunForward(breaker.State(), Reports(attempts[attempt..], retries - attempt))
                == RunForward(b, Reports(attempts, retries))
    {
      ghost var rest := attempts[attempt..];
      assert rest[1..] == attempts[attempt + 1..];
      if attempts[attempt].ok {
        assert Reports(rest, retries - attempt) == [Succeeded];
        breaker.RecordSuccess();
        assert RunForward(breaker.State(), []) == breaker.State();
        return true;
      }
      ghost var tail := Reports(attempts[attempt + 1..], retries - attempt - 1);
      assert Reports(rest, retries - attempt) == [Failed(attempts[attempt].now)] + tail;
      assert ([Failed(attempts[attempt].now)] + tail)[1..] == tail;
      breaker.RecordFailure(attempts[attempt].now);
    }
    return false;
  }

  /** A fetch whose attempts all fail adds one failure per attempt and leaves the
      breaker open exactly when the threshold is reached. */
  lemma {:induction false} FailedFetch(b: Breaker, attempts: seq<Attempt>, retries: nat)
    requires |attempts| >= retries && (forall i :: 0 <= i < retries ==> !attempts[i].ok)
    requires !b.open
    ensures var c := RunForward(b, Reports(attempts, retries));
      && c.failures == b.failures + retries
      && (c.open <==> retries > 0 && b.failures + retries >= b.threshold)
  {
    FailedFetchOpen(b, attempts, retries);
  }

  lemma {:induction false} FailedFetchOpen(b: Breaker, attempts: seq<Attempt>, retries: nat)
    requires |attempts| >= retries && (forall i :: 0 <= i < retries ==> !attempts[i].ok)
    ensures var c := RunForward(b, Reports(attempts, retries));
      && c.failures == b.failures + retries && c.threshold == b.threshold
      && (c.open <==> b.open || (retries > 0 && b.failures + retries >= b.threshold))
    decreases retries
  {
    if retries > 0 {
      var tail := Reports(attempts[1..], retries - 1);
      assert ([Failed(attempts[0].now)] + tail)[1..] == tail;
      FailedFetchOpen(Fail(b, attempts[0].now), attempts[1..], retries - 1);
    }
  }

  /** A fetch with an answer leaves the breaker closed with nothing counted, and
      reports nothing after it. */
  lemma {:induction false} AnsweredFetch(b: Breaker, attempts: seq<Attempt>, retries: nat, first: nat)
    requires |attempts| >= retries > first && attempts[first].ok
    requires forall i :: 0 <= i < first ==> !attempts[i].ok
    ensures |Reports(attempts, retries)| == first + 1
    ensures var c := RunForward(b, Reports(attempts, retries));
      && c.failures == 0 && !c.open
      && c.lastFailure == if first == 0 then b.lastFailure else attempts[first - 1].now
    decreases first
  {
    var reports := Reports(attempts, retries);
    if first == 0 {
      assert reports == [Succeeded] && reports[1..] == [];
    } else {
      var tail := Reports(attempts[1..], retries - 1);
      assert reports == [Failed(attempts[0].now)] + tail && reports[1..] == tail;
      AnsweredFetch(Fail(b, attempts[0].now), attempts[1..], retries - 1, first - 1);
    }
  }
}
