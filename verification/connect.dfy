/**
 The connect loop of the reconnecting runner.

 A connect sequence resets the strategy and then attempts to open a
 connection until one attempt succeeds, an attempt fails with an error that
 is not an operating-system error, or the strategy refuses another attempt.
 After an operating-system error that the strategy allows to retry, the loop
 sleeps for the current interval and only then increases it.

 Opening a connection is foreign code, so its outcomes are an input: the
 loop folds a sequence of attempt outcomes into the sleeps it performed and
 the way it ended.
 */
module Connecting {
  import opened Strategies

  /** What one attempt to open a connection produced. */
  datatype OpenOutcome =
      /** The transport connected. */
    | Opened
      /** An `OSError`: refused, unreachable, name resolution failed, ... */
    | OsError
      /** Any other exception, named by its class. */
    | OtherError(exception: string)

  /** How a connect sequence ended. */
  datatype Outcome =
      /** A connection is active and its close callback is registered. */
    | Connected
      /** `ExceededRetryCount` was raised and the event loop stopped. */
    | Exceeded
      /** A non-`OSError` exception escaped the loop. */
    | Raised(exception: string)
      /** All the given outcomes were failures that were retried: the loop is
          waiting for the result of its next attempt. */
    | Pending

  /** The effect of one attempt outcome on the loop: sleep and try again
      with the increased strategy, or leave the loop. */
  datatype AttemptResult =
    | Retrying(wait: real, next: Strategy)
    | Succeeded
    | GaveUp
    | Failed(exception: string)

  /** A (finished or pending) connect sequence: the sleeps it performed in
      order, how many attempt outcomes it consumed, how it ended, and the
      strategy it left behind. */
  datatype ConnectRun = ConnectRun(waits: seq<real>, attempts: nat, outcome: Outcome, strategy: Strategy)

  /** One iteration of the loop body. */
  function AttemptStep(s: Strategy, o: OpenOutcome): (r: AttemptResult)
    ensures r.Retrying? <==> o.OsError? && Retry(s)
    ensures r.Retrying? ==> GetRetryInterval(s).Ok? && GetRetryInterval(s).value == r.wait
    ensures r.Retrying? ==> IncreaseRetryInterval(s).Ok? && IncreaseRetryInterval(s).value == r.next
    ensures r.Succeeded? <==> o.Opened?
    ensures r.GaveUp? <==> o.OsError? && !Retry(s)
    ensures forall e :: r == Failed(e) <==> o == OtherError(e)
  {
    match o
    case Opened => Succeeded
    case OtherError(e) => Failed(e)
    case OsError =>
      if Retry(s) then
        Retrying(GetRetryInterval(s).value, IncreaseRetryInterval(s).value)
      else
        GaveUp
  }

  /** The loop, from strategy `s`, fed with the given attempt outcomes. */
  function AttemptLoop(s: Strategy, outcomes: seq<OpenOutcome>): (r: ConnectRun)
    ensures r.attempts <= |outcomes|
    ensures r.outcome.Pending? ==> r.attempts == |outcomes| == |r.waits|
    ensures !r.outcome.Pending? ==> r.attempts == |r.waits| + 1
    ensures forall i :: 0 <= i < |r.waits| ==> outcomes[i] == OsError
    ensures r.outcome.Connected? ==> outcomes[|r.waits|] == Opened
    ensures r.outcome.Exceeded? ==> outcomes[|r.waits|] == OsError && !Retry(r.strategy)
    ensures r.outcome.Raised? ==> outcomes[|r.waits|] == OtherError(r.outcome.exception)
    ensures SameConfig(s, r.strategy)
    ensures s.NoRetry? ==> r.waits == [] && r.strategy == s
    ensures s.Backoff? ==> r.strategy == IncreaseN(s, |r.waits|)
    decreases |outcomes|
  {
    if |outcomes| == 0 then
      ConnectRun([], 0, Pending, s)
    else
      match AttemptStep(s, outcomes[0])
      case Retrying(w, next) =>
        var rest := AttemptLoop(next, outcomes[1..]);
        ConnectRun([w] + rest.waits, rest.attempts + 1, rest.outcome, rest.strategy)
      case Succeeded => ConnectRun([], 1, Connected, s)
      case GaveUp => ConnectRun([], 1, Exceeded, s)
      case Failed(e) => ConnectRun([], 1, Raised(e), s)
  }

  /** A whole connect sequence: reset, then the loop. */
  function Connect(s: Strategy, outcomes: seq<OpenOutcome>): (r: ConnectRun)
    ensures SameConfig(s, r.strategy)
    ensures s.Backoff? ==> r.strategy == IncreaseN(ResetRetryInterval(s), |r.waits|)
  {
    AttemptLoop(ResetRetryInterval(s), outcomes)
  }

  /** An opener that fails with an operating-system error `n` times. */
  function AllFail(n: nat): (r: seq<OpenOutcome>)
    ensures |r| == n
    ensures forall i :: 0 <= i < n ==> r[i] == OsError
  {
    seq(n, _ => OsError)
  }

  // ---------------------------------------------------------------------
  // The waits of a connect sequence

  /** The i-th sleep of the loop uses the interval of the strategy after i
      increases, and that strategy permitted the retry. */
  lemma {:induction false} LoopWaits(s: Strategy, outcomes: seq<OpenOutcome>)
    ensures var r := AttemptLoop(s, outcomes);
      forall i :: 0 <= i < |r.waits| ==>
        s.Backoff? && Retry(IncreaseN(s, i)) && r.waits[i] == IncreaseN(s, i).current
    decreases |outcomes|
  {
    if |outcomes| > 0 {
      var step := AttemptStep(s, outcomes[0]);
      if step.Retrying? {
        var r := AttemptLoop(s, outcomes);
        var rest := AttemptLoop(step.next, outcomes[1..]);
        LoopWaits(step.next, outcomes[1..]);
        assert r.waits == [step.wait] + rest.waits;
        forall i | 0 <= i < |r.waits|
          ensures s.Backoff? && Retry(IncreaseN(s, i)) && r.waits[i] == IncreaseN(s, i).current
        {
          if i > 0 {
            assert r.waits[i] == rest.waits[i - 1];
            assert IncreaseN(s, i) == IncreaseN(step.next, i - 1);
          }
        }
      }
    }
  }

  /** Every connect sequence restarts the wait sequence: with a back-off
      strategy its k-th sleep lasts exactly initial * factor^k, whatever the
      strategy's interval was before, and every sleep was permitted by the
      strategy. A no-retry strategy never sleeps. */
  lemma ConnectWaitsGeometric(s: Strategy, outcomes: seq<OpenOutcome>)
    ensures var r := Connect(s, outcomes);
      forall k :: 0 <= k < |r.waits| ==>
        s.Backoff? && r.waits[k] == s.initial * Pow(s.factor, k) && s.initial * Pow(s.factor, k) <= s.max
  {
    var r := Connect(s, outcomes);
    forall k | 0 <= k < |r.waits|
      ensures s.Backoff? && r.waits[k] == s.initial * Pow(s.factor, k) && s.initial * Pow(s.factor, k) <= s.max
    {
      ConnectWait(s, outcomes, k);
    }
  }

  lemma ConnectWait(s: Strategy, outcomes: seq<OpenOutcome>, k: nat)
    requires k < |Connect(s, outcomes).waits|
    ensures s.Backoff?
    ensures Connect(s, outcomes).waits[k] == s.initial * Pow(s.factor, k) <= s.max
  {
    var s0 := ResetRetryInterval(s);
    LoopWaits(s0, outcomes);
    var t := IncreaseN(s0, k);
    assert Retry(t) && Connect(s, outcomes).waits[k] == t.current;
    IntervalAfterIncreases(s, k);
  }

  /** A successful attempt ends the loop and leaves the interval as the
      failed attempts before it made it: success does not touch it. */
  lemma SuccessKeepsInterval(s: Strategy, failures: nat)
    requires s.Backoff?
    requires forall k :: 0 <= k < failures ==> Retry(IncreaseN(ResetRetryInterval(s), k))
    ensures var r := Connect(s, AllFail(failures) + [Opened]);
      && r.outcome == Connected
      && r.attempts == failures + 1
      && |r.waits| == failures
      && r.strategy == IncreaseN(ResetRetryInterval(s), failures)
  {
    var outcomes := AllFail(failures) + [Opened];
    var r := Connect(s, outcomes);
    LoopWaits(ResetRetryInterval(s), outcomes);
    AllFailPrefix(ResetRetryInterval(s), AllFail(failures), [Opened]);
  }

  /** With outcomes that begin with `|fails|` operating-system errors, each
      of which the strategy permits to retry, the loop sleeps once per
      failure and then continues as the loop from the increased strategy. */
  lemma {:induction false} AllFailPrefix(s: Strategy, fails: seq<OpenOutcome>, tail: seq<OpenOutcome>)
    requires s.Backoff?
    requires forall i :: 0 <= i < |fails| ==> fails[i] == OsError
    requires forall k :: 0 <= k < |fails| ==> Retry(IncreaseN(s, k))
    ensures var r := AttemptLoop(s, fails + tail);
      var t := AttemptLoop(IncreaseN(s, |fails|), tail);
      && r.outcome == t.outcome
      && r.strategy == t.strategy
      && r.attempts == t.attempts + |fails|
      && |r.waits| == |t.waits| + |fails|
    decreases |fails|
  {
    if |fails| == 0 {
      assert fails + tail == tail;
    } else {
      var next := IncreaseRetryInterval(s).value;
      assert Retry(IncreaseN(s, 0));
      assert (fails + tail)[0] == OsError;
      assert (fails + tail)[1..] == fails[1..] + tail;
      forall k | 0 <= k < |fails[1..]|
        ensures Retry(IncreaseN(next, k))
      {
        assert IncreaseN(s, k + 1) == IncreaseN(next, k);
      }
      forall i | 0 <= i < |fails[1..]|
        ensures fails[1..][i] == OsError
      {
        assert fails[1..][i] == fails[i + 1];
      }
      AllFailPrefix(next, fails[1..], tail);
      assert IncreaseN(s, |fails|) == IncreaseN(next, |fails[1..]|);
    }
  }

  // ---------------------------------------------------------------------
  // An opener that always fails

  /** Against an opener that always fails, a connect sequence either is still
      retrying or has raised `ExceededRetryCount`, and it has raised it
      exactly when some k below the number of attempts has a wait the
      strategy refuses. */
  lemma AlwaysFailing(s: Strategy, n: nat)
    requires s.Backoff?
    ensures var r := Connect(s, AllFail(n));
      && (r.outcome == Exceeded || r.outcome == Pending)
      && (r.outcome == Exceeded <==> exists k :: 0 <= k < n && !Retry(IncreaseN(ResetRetryInterval(s), k)))
      && (r.outcome == Exceeded ==> !Retry(IncreaseN(ResetRetryInterval(s), |r.waits|)))
  {
    var r := Connect(s, AllFail(n));
    var s0 := ResetRetryInterval(s);
    LoopWaits(s0, AllFail(n));
    if r.outcome == Exceeded {
      assert !Retry(IncreaseN(s0, |r.waits|));
      assert 0 <= |r.waits| < n;
    } else {
      assert r.outcome == Pending;
      forall k | 0 <= k < n
        ensures Retry(IncreaseN(s0, k))
      {
      }
    }
  }

  /** With a positive initial interval and a factor above one, an opener that
      always fails makes the connect sequence raise `ExceededRetryCount`
      after finitely many attempts. */
  lemma AlwaysFailingGivesUp(s: Strategy)
    requires s.Backoff? && s.initial > 0.0 && s.factor > 1.0
    ensures Connect(s, AllFail(GiveUpBound(s) + 1)).outcome == Exceeded
  {
    var k := GiveUpBound(s);
    IntervalAfterIncreases(s, k);
    assert !Retry(IncreaseN(ResetRetryInterval(s), k));
    AlwaysFailing(s, k + 1);
  }

  /** With the no-retry strategy a failing first attempt raises
      `ExceededRetryCount` after exactly one attempt and no sleep. */
  lemma NoRetryGivesUpAtOnce(rest: seq<OpenOutcome>)
    ensures Connect(NoRetry, [OsError] + rest) == ConnectRun([], 1, Exceeded, NoRetry)
  {
  }

  /** An exception other than `OSError` is never retried: it ends the loop at
      once, with no sleep, whatever the strategy. */
  lemma OtherErrorsNotRetried(s: Strategy, e: string, rest: seq<OpenOutcome>)
    ensures Connect(s, [OtherError(e)] + rest) == ConnectRun([], 1, Raised(e), ResetRetryInterval(s))
  {
  }

  /** The connect loop run against an opener that always fails, written as
      the `while True` loop of `_connect`: it terminates when the factor is above one and the
      initial interval positive, and returns the sleeps it performed. */
  method AlwaysFailingSchedule(s: Strategy) returns (waits: seq<real>)
    requires s.Backoff? && s.initial > 0.0 && s.factor > 1.0
    ensures |waits| <= GiveUpBound(s)
    ensures Connect(s, AllFail(|waits| + 1)).outcome == Exceeded
    ensures Connect(s, AllFail(|waits| + 1)).waits == waits
  {
    var strategy := ResetRetryInterval(s);
    waits := [];
    ghost var bound := GiveUpBound(s);
    while Retry(strategy)
      invariant strategy == IncreaseN(ResetRetryInterval(s), |waits|)
      invariant forall k :: 0 <= k < |waits| ==> waits[k] == IncreaseN(ResetRetryInterval(s), k).current
      invariant forall k :: 0 <= k < |waits| ==> Retry(IncreaseN(ResetRetryInterval(s), k))
      invariant |waits| <= bound
      decreases bound - |waits|
    {
      if |waits| == bound {
        IntervalAfterIncreases(s, bound);
        assert false;
      }
      IncreaseNSucc(ResetRetryInterval(s), |waits|);
      waits := waits + [GetRetryInterval(strategy).value];
      strategy := IncreaseRetryInterval(strategy).value;
    }
    ScheduleIsConnect(s, waits);
  }

  /** A list of sleeps, each the interval after as many increases as sleeps
      before it and each permitted, followed by a refused interval, is what
      the connect loop does against an opener that always fails. */
  lemma ScheduleIsConnect(s: Strategy, waits: seq<real>)
    requires s.Backoff?
    requires forall k :: 0 <= k < |waits| ==> waits[k] == IncreaseN(ResetRetryInterval(s), k).current
    requires forall k :: 0 <= k < |waits| ==> Retry(IncreaseN(ResetRetryInterval(s), k))
    requires !Retry(IncreaseN(ResetRetryInterval(s), |waits|))
    ensures Connect(s, AllFail(|waits| + 1)).outcome == Exceeded
    ensures Connect(s, AllFail(|waits| + 1)).waits == waits
  {
    var n := |waits| + 1;
    var s0 := ResetRetryInterval(s);
    AlwaysFailing(s, n);
    var r := Connect(s, AllFail(n));
    LoopWaits(s0, AllFail(n));
    assert r.outcome == Exceeded;
    assert |r.waits| == |waits|;
  }

  // ---------------------------------------------------------------------
  // Worked examples

  /** Back-off(0.5, 512, 2) against an opener that fails three times and
      then connects: sleeps of 0.5, 1 and 2 seconds, then connected. */
  lemma ThreeFailuresThenSuccess()
    ensures Connect(NewBackoff(0.5, 512.0, 2.0), AllFail(3) + [Opened]).waits == [0.5, 1.0, 2.0]
    ensures Connect(NewBackoff(0.5, 512.0, 2.0), AllFail(3) + [Opened]).outcome == Connected
  {
    var outcomes := AllFail(3) + [Opened];
    assert outcomes == [OsError, OsError, OsError, Opened];
    assert outcomes[1..] == [OsError, OsError, Opened];
    assert outcomes[2..] == [OsError, Opened];
    assert outcomes[3..] == [Opened];
    assert AttemptLoop(Backoff(0.5, 512.0, 2.0, 4.0), outcomes[3..]).waits == [];
    assert AttemptLoop(Backoff(0.5, 512.0, 2.0, 2.0), outcomes[2..]).waits == [2.0];
    assert AttemptLoop(Backoff(0.5, 512.0, 2.0, 1.0), outcomes[1..]).waits == [1.0, 2.0];
  }

  /** Back-off(0.5, 2, 2) against an opener that always fails: sleeps of 0.5,
      1 and 2 seconds, then `ExceededRetryCount` on the fourth attempt. */
  lemma CapOfTwoSeconds(n: nat)
    requires n >= 4
    ensures Connect(NewBackoff(0.5, 2.0, 2.0), AllFail(n)).waits == [0.5, 1.0, 2.0]
    ensures Connect(NewBackoff(0.5, 2.0, 2.0), AllFail(n)).attempts == 4
    ensures Connect(NewBackoff(0.5, 2.0, 2.0), AllFail(n)).outcome == Exceeded
  {
    var outcomes := AllFail(n);
    assert outcomes[0] == OsError;
    assert outcomes[1..][0] == OsError;
    assert outcomes[1..][1..] == outcomes[2..];
    assert outcomes[2..][0] == OsError;
    assert outcomes[2..][1..] == outcomes[3..];
    assert outcomes[3..][0] == OsError;
    assert AttemptLoop(Backoff(0.5, 2.0, 2.0, 4.0), outcomes[3..]) == ConnectRun([], 1, Exceeded, Backoff(0.5, 2.0, 2.0, 4.0));
    assert AttemptLoop(Backoff(0.5, 2.0, 2.0, 2.0), outcomes[2..]).waits == [2.0];
    assert AttemptLoop(Backoff(0.5, 2.0, 2.0, 1.0), outcomes[1..]).waits == [1.0, 2.0];
  }
}
