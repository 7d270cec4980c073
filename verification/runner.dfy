/**
 The application runner: construction (with the resolution of its `ssl`
 argument) and the life of one `run` call.

 `run` schedules a connect sequence on the event loop and runs the loop
 until it is stopped, either by the connect sequence giving up or by an
 interrupt (SIGTERM or Ctrl-C). It then marks the runner as closing, leaves
 the WAMP session of the active connection if there is one, and closes the
 loop. A connection that is lost while the runner is not closing starts a
 fresh connect sequence.

 The event loop is single-threaded, so a run is a sequence of events, each
 handled to completion: the start of `run`, the outcome of the pending
 connection attempt, the end of a back-off sleep, the loss of the active
 connection, and an interrupt.
 Handling an event yields the runner's next state and the effects it
 performed, in order.
 */
module Runner {
  import opened Errors
  import opened Strategies
  import opened Connecting

  // ---------------------------------------------------------------------
  // Construction

  /** The value of the `ssl` argument: a boolean or an SSL context object. */
  datatype SslOption = SslFlag(enabled: bool) | SslContext(id: nat)

  /** Python truthiness of an `ssl` value: a context object is always true. */
  predicate Truthy(v: SslOption) {
    match v
    case SslFlag(b) => b
    case SslContext(_) => true
  }

  /** What URL parsing yields; the parser itself is foreign code. */
  datatype Endpoint = Endpoint(isSecure: bool, host: string, port: nat)

  /** The `ssl` value passed to every connection attempt. Without an `ssl`
      argument the URL scheme decides; an argument that asks for TLS on a
      `ws:` URL is rejected; any other argument is kept as given. */
  function ResolveSsl(ssl: Option<SslOption>, isSecure: bool): (r: Result<SslOption>)
    ensures r.Err? <==> ssl.Some? && Truthy(ssl.value) && !isSecure
    ensures r.Err? ==> r.error == SslConflict
    ensures r.Ok? && Truthy(r.value) ==> isSecure
    ensures ssl.None? ==> r == Ok(SslFlag(isSecure))
    ensures ssl.Some? && r.Ok? ==> r.value == ssl.value
  {
    match ssl
    case None => Ok(SslFlag(isSecure))
    case Some(v) =>
      if Truthy(v) && !isSecure then Err(SslConflict) else Ok(v)
  }

  /** The configuration handed to every connection attempt. */
  datatype Config = Config(host: string, port: nat, ssl: SslOption)

  /** Where a run is. */
  datatype Phase =
      /** Constructed; `run` has not been called. */
    | NotStarted
      /** A connect sequence is waiting for the outcome of an attempt. */
    | Attempting
      /** The connect sequence sleeps before its next attempt; the interval
          is increased only when the sleep ends. */
    | Sleeping
      /** A connection is active; its close callback is registered. */
    | Online
      /** The connect sequence died of an exception other than `OSError`.
          The event loop keeps running with no connection and nothing
          pending. */
    | Stalled(exception: string)
      /** `run` has returned and the event loop is closed. */
    | Finished(gaveUp: bool)

  /** The runner: its configuration, its own retry strategy, the `closing`
      flag, where it is, and whether a close callback is still registered on
      a connection. */
  datatype ApplicationRunner = ApplicationRunner(config: Config, strategy: Strategy, closing: bool, phase: Phase, armed: bool)

  /** The constructor: fails exactly when the `ssl` argument conflicts with
      the URL, and otherwise builds a runner that is not closing. */
  function NewRunner(endpoint: Endpoint, ssl: Option<SslOption>, strategy: Strategy): (r: Result<ApplicationRunner>)
    ensures r.Err? <==> ResolveSsl(ssl, endpoint.isSecure).Err?
    ensures r.Ok? ==> Valid(r.value) && r.value.phase.NotStarted? && !r.value.closing
    ensures r.Ok? ==> r.value.strategy == strategy
    ensures r.Ok? ==> r.value.config == Config(endpoint.host, endpoint.port, ResolveSsl(ssl, endpoint.isSecure).value)
  {
    var resolved :- ResolveSsl(ssl, endpoint.isSecure);
    Ok(ApplicationRunner(Config(endpoint.host, endpoint.port, resolved), strategy, false, NotStarted, false))
  }

  // ---------------------------------------------------------------------
  // Events and effects

  datatype Event =
      /** `run` is called. */
    | Start
      /** The pending connection attempt produced this outcome. */
    | AttemptOutcome(outcome: OpenOutcome)
      /** The back-off sleep of the connect sequence ended. */
    | WakeUp
      /** The connection whose close callback is registered closed. */
    | ConnectionLost
      /** The event loop was stopped by SIGTERM or Ctrl-C; `sessionAttached`
          says whether the active connection (if any) currently has a WAMP
          session. */
    | Interrupt(sessionAttached: bool)

  datatype Effect =
      /** `reset_retry_interval` on the strategy. */
    | ResetInterval
      /** A connection attempt with the runner's configuration. */
    | OpenConnection
      /** A sleep of that many seconds. */
    | Sleep(seconds: real)
      /** A close callback registered on the new connection. */
    | AddCloseCallback
      /** The loop stopped and `ExceededRetryCount` raised. */
    | RaiseExceeded
      /** The connect sequence raised this exception. */
    | TaskFailed(exception: string)
      /** The WAMP session of the active connection is left. */
    | Leave
      /** The event loop is closed. */
    | CloseLoop

  datatype StepResult = StepResult(runner: ApplicationRunner, effects: seq<Effect>)

  /** The state invariant of a runner. */
  predicate Valid(r: ApplicationRunner) {
    && (r.closing <==> r.phase.Finished?)
    && (r.phase.Online? ==> r.armed)
    && (r.armed ==> r.phase.Online? || r.phase.Finished?)
    && (r.phase.Sleeping? ==> r.strategy.Backoff?)
  }

  /** The start of a connect sequence: the active connection is forgotten,
      the interval reset, and the first attempt made. */
  function BeginConnect(r: ApplicationRunner): (t: StepResult)
    ensures t.runner.phase.Attempting? && !t.runner.armed
    ensures t.runner.strategy == ResetRetryInterval(r.strategy)
    ensures t.effects == [ResetInterval, OpenConnection]
    ensures t.runner.config == r.config && t.runner.closing == r.closing
  {
    StepResult(r.(strategy := ResetRetryInterval(r.strategy), phase := Attempting, armed := false),
               [ResetInterval, OpenConnection])
  }

  /** Handling of one event. An event that cannot happen in the runner's
      phase changes nothing: an outcome with no attempt pending, a wake-up
      with no sleep running, a lost connection with no callback registered,
      a second `run`, an interrupt of a loop that is not running. */
  function Step(r: ApplicationRunner, e: Event): (t: StepResult)
    requires Valid(r)
    ensures Valid(t.runner)
    ensures t.runner.config == r.config
    ensures SameConfig(r.strategy, t.runner.strategy)
    ensures r.closing ==> t.runner.closing
  {
    match e
    case Start =>
      if r.phase.NotStarted? then BeginConnect(r) else StepResult(r, [])
    case AttemptOutcome(o) =>
      if !r.phase.Attempting? then StepResult(r, [])
      else
        (match AttemptStep(r.strategy, o)
         case Retrying(w, _) =>
           StepResult(r.(phase := Sleeping), [Sleep(w)])
         case Succeeded =>
           StepResult(r.(phase := Online, armed := true), [AddCloseCallback])
         case GaveUp =>
           // the loop stops, then `run` marks the runner closing; there is
           // no active connection, so nothing is left
           StepResult(r.(phase := Finished(true), closing := true), [RaiseExceeded, CloseLoop])
         case Failed(x) =>
           StepResult(r.(phase := Stalled(x)), [TaskFailed(x)]))
    case WakeUp =>
      if !r.phase.Sleeping? then StepResult(r, [])
      else
        // the interval grows after the sleep, then the loop attempts again
        StepResult(r.(strategy := IncreaseRetryInterval(r.strategy).value, phase := Attempting),
                   [OpenConnection])
    case ConnectionLost =>
      if !r.armed then StepResult(r, [])
      else if r.closing then StepResult(r.(armed := false), [])
      else BeginConnect(r)
    case Interrupt(sessionAttached) =>
      if r.phase.NotStarted? || r.phase.Finished? then StepResult(r, [])
      else
        var leave := if r.phase.Online? && sessionAttached then [Leave] else [];
        StepResult(r.(closing := true, phase := Finished(false)), leave + [CloseLoop])
  }

  /** Handling of a sequence of events, one after the other. */
  function Run(r: ApplicationRunner, events: seq<Event>): (t: StepResult)
    requires Valid(r)
    ensures Valid(t.runner)
    ensures t.runner.config == r.config
    ensures r.closing ==> t.runner.closing
    decreases |events|
  {
    if |events| == 0 then StepResult(r, [])
    else
      var first := Step(r, events[0]);
      var rest := Run(first.runner, events[1..]);
      StepResult(rest.runner, first.effects + rest.effects)
  }

  // ---------------------------------------------------------------------
  // Observations of an effect trace

  /** How often `x` occurs in `effects`. */
  function Count(effects: seq<Effect>, x: Effect): nat {
    if |effects| == 0 then 0
    else (if effects[0] == x then 1 else 0) + Count(effects[1..], x)
  }

  /** The sleeps of a trace, in order. */
  function Sleeps(effects: seq<Effect>): seq<real> {
    if |effects| == 0 then []
    else (if effects[0].Sleep? then [effects[0].seconds] else []) + Sleeps(effects[1..])
  }

  lemma {:induction false} CountAppend(a: seq<Effect>, b: seq<Effect>, x: Effect)
    ensures Count(a + b, x) == Count(a, x) + Count(b, x)
    decreases |a|
  {
    if |a| == 0 {
      assert a + b == b;
    } else {
      assert (a + b)[0] == a[0];
      assert (a + b)[1..] == a[1..] + b;
      CountAppend(a[1..], b, x);
    }
  }

  lemma {:induction false} SleepsAppend(a: seq<Effect>, b: seq<Effect>)
    ensures Sleeps(a + b) == Sleeps(a) + Sleeps(b)
    decreases |a|
  {
    if |a| == 0 {
      assert a + b == b;
    } else {
      assert (a + b)[0] == a[0];
      assert (a + b)[1..] == a[1..] + b;
      SleepsAppend(a[1..], b);
    }
  }

  /** The events that feed the given outcomes to the pending attempts, each
      followed by the end of the sleep it may have started. */
  function Attempts(outcomes: seq<OpenOutcome>): (events: seq<Event>)
    ensures |events| == 2 * |outcomes|
    ensures forall i :: 0 <= i < |events| ==> events[i].AttemptOutcome? || events[i] == WakeUp
    decreases |outcomes|
  {
    if |outcomes| == 0 then []
    else [AttemptOutcome(outcomes[0]), WakeUp] + Attempts(outcomes[1..])
  }

  // ---------------------------------------------------------------------
  // Shutdown

  /** Once the runner is closing, no event makes it connect, sleep or reset
      again, and no session is left. */
  lemma {:induction false} NothingAfterClosing(r: ApplicationRunner, events: seq<Event>)
    requires Valid(r) && r.closing
    ensures var t := Run(r, events);
      && t.runner.closing
      && Count(t.effects, OpenConnection) == 0
      && Count(t.effects, ResetInterval) == 0
      && Count(t.effects, Leave) == 0
      && Sleeps(t.effects) == []
    decreases |events|
  {
    if |events| > 0 {
      var first := Step(r, events[0]);
      assert first.effects == [];
      var rest := Run(first.runner, events[1..]);
      NothingAfterClosing(first.runner, events[1..]);
      assert Run(r, events).effects == [] + rest.effects == rest.effects;
    }
  }

  /** A run leaves the WAMP session at most once, whatever the events; once
      the runner is closing it never does. */
  lemma {:induction false} LeaveAtMostOnce(r: ApplicationRunner, events: seq<Event>)
    requires Valid(r)
    ensures Count(Run(r, events).effects, Leave) <= (if r.closing then 0 else 1)
    decreases |events|
  {
    if |events| > 0 {
      var first := Step(r, events[0]);
      var rest := Run(first.runner, events[1..]);
      CountAppend(first.effects, rest.effects, Leave);
      StepLeaves(r, events[0]);
      if first.runner.closing {
        NothingAfterClosing(first.runner, events[1..]);
      } else {
        LeaveAtMostOnce(first.runner, events[1..]);
      }
    }
  }

  /** One event leaves the session at most once, and only when it is the
      event that makes the runner closing. */
  lemma StepLeaves(r: ApplicationRunner, e: Event)
    requires Valid(r)
    ensures var t := Step(r, e);
      Count(t.effects, Leave) <= (if !r.closing && t.runner.closing then 1 else 0)
  {
    var t := Step(r, e);
    if e.Interrupt? && !r.closing && !r.phase.NotStarted? {
      assert t.effects[1..] == [CloseLoop] || t.effects[1..] == [];
      NoLeave(t.effects[1..]);
    } else {
      NoLeave(t.effects);
    }
  }

  /** A trace with no `Leave` in it counts none. */
  lemma {:induction false} NoLeave(effects: seq<Effect>)
    requires forall i :: 0 <= i < |effects| ==> effects[i] != Leave
    ensures Count(effects, Leave) == 0
    decreases |effects|
  {
    if |effects| > 0 {
      NoLeave(effects[1..]);
    }
  }

  /** Stopping a connected runner leaves its session exactly once and closes
      the loop; the loss of the connection that the leave causes does not
      start a reconnect, because the runner was marked closing first. */
  lemma InterruptWhileConnected(r: ApplicationRunner)
    requires Valid(r) && r.phase.Online?
    ensures var t := Run(r, [Interrupt(true), ConnectionLost]);
      && t.effects == [Leave, CloseLoop]
      && t.runner.closing && !t.runner.armed
  {
    var first := Step(r, Interrupt(true));
    assert first.effects == [Leave, CloseLoop];
    assert [Interrupt(true), ConnectionLost][1..] == [ConnectionLost];
    var second := Run(first.runner, [ConnectionLost]);
    assert second.effects == [];
  }

  /** A second interrupt has no effect at all. */
  lemma InterruptIdempotent(r: ApplicationRunner, a: bool, b: bool)
    requires Valid(r)
    ensures var once := Step(r, Interrupt(a));
      Step(once.runner, Interrupt(b)) == StepResult(once.runner, [])
  {
  }

  /** An interrupt during the back-off sleep abandons the connect sequence:
      the loop is closed with no further attempt, and the interval is not
      increased. */
  lemma InterruptWhileSleeping(r: ApplicationRunner, o: OpenOutcome, attached: bool)
    requires Valid(r) && r.phase.Attempting?
    requires AttemptStep(r.strategy, o).Retrying?
    ensures var t := Run(r, [AttemptOutcome(o), Interrupt(attached)]);
      && t.effects == [Sleep(AttemptStep(r.strategy, o).wait), CloseLoop]
      && t.runner.strategy == r.strategy
      && t.runner.phase == Finished(false)
  {
    var events := [AttemptOutcome(o), Interrupt(attached)];
    var first := Step(r, events[0]);
    assert events[1..] == [Interrupt(attached)];
    var second := Step(first.runner, Interrupt(attached));
    assert second.effects == [CloseLoop];
    assert Run(first.runner, events[1..]) == StepResult(second.runner, second.effects + []);
  }

  // ---------------------------------------------------------------------
  // Reconnecting

  /** A lost connection starts a fresh connect sequence exactly when the
      runner is not closing: the interval is reset and a new attempt made.
      Otherwise nothing happens. */
  lemma LostConnectionReconnectsIff(r: ApplicationRunner)
    requires Valid(r) && r.armed
    ensures var t := Step(r, ConnectionLost);
      && !t.runner.armed
      && (t.runner.phase.Attempting? <==> !r.closing)
      && (!r.closing ==> t.effects == [ResetInterval, OpenConnection]
                         && t.runner.strategy == ResetRetryInterval(r.strategy))
      && (r.closing ==> t.effects == [] && t.runner.closing)
  {
  }

  /** A successful attempt registers exactly one close callback, while none
      is registered, and leaves the strategy untouched. */
  lemma SuccessRegistersOneCallback(r: ApplicationRunner)
    requires Valid(r) && r.phase.Attempting?
    ensures var t := Step(r, AttemptOutcome(Opened));
      && !r.armed && t.runner.armed
      && t.effects == [AddCloseCallback]
      && t.runner.strategy == r.strategy
      && t.runner.phase.Online?
  {
  }

  /** While attempting, the runner performs exactly the connect loop: the
      sleeps it takes are the loop's sleeps, it makes one more attempt per
      sleep, and it ends where the loop ends. */
  lemma {:induction false} AttemptingFollowsLoop(r: ApplicationRunner, outcomes: seq<OpenOutcome>)
    requires Valid(r) && r.phase.Attempting?
    ensures FollowsLoop(Run(r, Attempts(outcomes)), AttemptLoop(r.strategy, outcomes))
    decreases |outcomes|
  {
    var events := Attempts(outcomes);
    if |outcomes| == 0 {
      assert Run(r, events) == StepResult(r, []);
    } else {
      var tail := Attempts(outcomes[1..]);
      assert events[0] == AttemptOutcome(outcomes[0]);
      assert events[1..] == [WakeUp] + tail;
      var first := Step(r, events[0]);
      var rest := Run(first.runner, events[1..]);
      assert Run(r, events) == StepResult(rest.runner, first.effects + rest.effects);
      if AttemptStep(r.strategy, outcomes[0]).Retrying? {
        var second := Step(first.runner, WakeUp);
        assert ([WakeUp] + tail)[0] == WakeUp;
        assert ([WakeUp] + tail)[1..] == tail;
        assert rest == StepResult(Run(second.runner, tail).runner, second.effects + Run(second.runner, tail).effects);
        AttemptingFollowsLoop(second.runner, outcomes[1..]);
        RetryingStep(r, outcomes);
      } else {
        StaysOutsideAttempting(first.runner, events[1..]);
        FinishingStep(r, outcomes);
      }
    }
  }

  /** The runner state and trace `t` agree with the connect loop run `c`. */
  predicate FollowsLoop(t: StepResult, c: ConnectRun) {
    && Sleeps(t.effects) == c.waits
    && Count(t.effects, OpenConnection) == |c.waits|
    && t.runner.strategy == c.strategy
    && (c.outcome == Connected <==> t.runner.phase == Online)
    && (c.outcome == Exceeded <==> t.runner.phase == Finished(true))
    && (c.outcome.Raised? <==> t.runner.phase.Stalled?)
    && (c.outcome.Raised? ==> t.runner.phase.exception == c.outcome.exception)
    && (c.outcome == Pending <==> t.runner.phase == Attempting)
  }

  /** A retried failure, then the end of its sleep: one sleep of the loop's
      wait, one more attempt, and the loop's increased strategy. */
  lemma {:induction false} RetryingStep(r: ApplicationRunner, outcomes: seq<OpenOutcome>)
    requires Valid(r) && r.phase.Attempting? && |outcomes| > 0
    requires AttemptStep(r.strategy, outcomes[0]).Retrying?
    requires var second := Step(Step(r, AttemptOutcome(outcomes[0])).runner, WakeUp);
      FollowsLoop(Run(second.runner, Attempts(outcomes[1..])), AttemptLoop(second.runner.strategy, outcomes[1..]))
    ensures var first := Step(r, AttemptOutcome(outcomes[0]));
      var second := Step(first.runner, WakeUp);
      var rest := Run(second.runner, Attempts(outcomes[1..]));
      FollowsLoop(StepResult(rest.runner, first.effects + (second.effects + rest.effects)),
                  AttemptLoop(r.strategy, outcomes))
  {
    var step := AttemptStep(r.strategy, outcomes[0]);
    var first := Step(r, AttemptOutcome(outcomes[0]));
    var second := Step(first.runner, WakeUp);
    var rest := Run(second.runner, Attempts(outcomes[1..]));
    assert first.effects == [Sleep(step.wait)];
    assert second.effects == [OpenConnection];
    assert second.runner.strategy == step.next;
    SleepsAppend(second.effects, rest.effects);
    CountAppend(second.effects, rest.effects, OpenConnection);
    SleepsAppend(first.effects, second.effects + rest.effects);
    CountAppend(first.effects, second.effects + rest.effects, OpenConnection);
    assert Sleeps(first.effects) == [step.wait];
    assert Sleeps(second.effects) == [];
    assert Count(first.effects, OpenConnection) == 0;
    assert Count(second.effects, OpenConnection) == 1;
  }

  lemma FinishingStep(r: ApplicationRunner, outcomes: seq<OpenOutcome>)
    requires Valid(r) && r.phase.Attempting? && |outcomes| > 0
    requires !AttemptStep(r.strategy, outcomes[0]).Retrying?
    ensures var first := Step(r, AttemptOutcome(outcomes[0]));
      FollowsLoop(StepResult(first.runner, first.effects + []), AttemptLoop(r.strategy, outcomes))
  {
    var first := Step(r, AttemptOutcome(outcomes[0]));
    assert first.effects + [] == first.effects;
    assert Sleeps(first.effects) == [];
    assert Count(first.effects, OpenConnection) == 0;
  }

  /** Attempt outcomes and ends of sleep that arrive when no attempt is
      pending and no sleep running change nothing. */
  lemma {:induction false} StaysOutsideAttempting(r: ApplicationRunner, events: seq<Event>)
    requires Valid(r) && !r.phase.Attempting? && !r.phase.Sleeping?
    requires forall i :: 0 <= i < |events| ==> events[i].AttemptOutcome? || events[i] == WakeUp
    ensures Run(r, events) == StepResult(r, [])
    decreases |events|
  {
    if |events| > 0 {
      StaysOutsideAttempting(r, events[1..]);
    }
  }

  /** The trace `t` performed a whole connect sequence from strategy `s`,
      fed the given outcomes: the reset comes first, the sleeps are those of
      the connect loop from the reset strategy, there is one attempt more
      than there are sleeps, and the runner ends where the sequence ends,
      with the strategy it leaves. */
  predicate RunsConnect(t: StepResult, s: Strategy, outcomes: seq<OpenOutcome>) {
    var c := Connect(s, outcomes);
    && |t.effects| > 0 && t.effects[0] == ResetInterval
    && Sleeps(t.effects) == c.waits
    && Count(t.effects, OpenConnection) == |c.waits| + 1
    && t.runner.strategy == c.strategy
    && (c.outcome == Connected <==> t.runner.phase == Online)
    && (c.outcome == Exceeded <==> t.runner.phase == Finished(true))
    && (c.outcome.Raised? <==> t.runner.phase.Stalled?)
    && (c.outcome.Raised? ==> t.runner.phase.exception == c.outcome.exception)
    && (c.outcome == Pending <==> t.runner.phase == Attempting)
  }

  /** The reset and first attempt, followed by a trace that follows the
      loop from the reset strategy, make a whole connect sequence. */
  lemma {:induction false} BeginThenLoop(first: StepResult, rest: StepResult, s: Strategy, outcomes: seq<OpenOutcome>)
    requires first.effects == [ResetInterval, OpenConnection]
    requires FollowsLoop(rest, AttemptLoop(ResetRetryInterval(s), outcomes))
    ensures RunsConnect(StepResult(rest.runner, first.effects + rest.effects), s, outcomes)
  {
    SleepsAppend(first.effects, rest.effects);
    CountAppend(first.effects, rest.effects, OpenConnection);
    assert Sleeps(first.effects) == [];
    assert Count(first.effects, OpenConnection) == 1;
    assert (first.effects + rest.effects)[0] == ResetInterval;
  }

  /** The step that begins a connect sequence, followed by the outcomes of
      its attempts, performs that whole sequence. */
  lemma {:induction false} BeginThenAttempts(r: ApplicationRunner, e: Event, outcomes: seq<OpenOutcome>)
    requires Valid(r)
    requires Step(r, e) == BeginConnect(r)
    ensures RunsConnect(Run(r, [e] + Attempts(outcomes)), r.strategy, outcomes)
  {
    var events := [e] + Attempts(outcomes);
    var first := Step(r, e);
    var rest := Run(first.runner, Attempts(outcomes));
    assert events[0] == e;
    assert events[1..] == Attempts(outcomes);
    assert Run(r, events) == StepResult(rest.runner, first.effects + rest.effects);
    AttemptingFollowsLoop(first.runner, outcomes);
    BeginThenLoop(first, rest, r.strategy, outcomes);
  }

  /** Starting a run performs a whole connect sequence from the reset
      strategy: the sleeps are those of the connect loop, initial * factor^k,
      and the run ends where the sequence ends. */
  lemma StartRunsConnect(r: ApplicationRunner, outcomes: seq<OpenOutcome>)
    requires Valid(r) && r.phase.NotStarted?
    ensures RunsConnect(Run(r, [Start] + Attempts(outcomes)), r.strategy, outcomes)
  {
    BeginThenAttempts(r, Start, outcomes);
  }

  /** A reconnect after a lost connection performs a whole connect sequence
      from the reset strategy: its waits start again at the initial interval,
      however far the previous sequence had grown it. */
  lemma ReconnectRestartsWaits(r: ApplicationRunner, outcomes: seq<OpenOutcome>)
    requires Valid(r) && r.armed && !r.closing
    ensures RunsConnect(Run(r, [ConnectionLost] + Attempts(outcomes)), r.strategy, outcomes)
  {
    BeginThenAttempts(r, ConnectionLost, outcomes);
  }
}
