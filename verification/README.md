# autobahn-autoreconnect: the reconnect layer, in Dafny

`autobahn_autoreconnect` is a variant of Autobahn's asyncio
`ApplicationRunner` for WAMP clients. It adds automatic reconnection with a
pluggable retry strategy. This project models that reconnect layer and proves
properties of it:

- `strategies.dfy` (module `Strategies`): the retry strategies
  `NoRetryStrategy` and `BackoffStrategy`. They are one tagged datatype with
  pure operations `GetRetryInterval`, `ResetRetryInterval`,
  `IncreaseRetryInterval` and `Retry`. The module also proves facts about the
  wait sequence: it is `initial * factor^k`, a reset restores it, it never
  shrinks for factors of at least one, and it ends when the factor is above
  one.
- `connect.dfy` (module `Connecting`): the `_connect` loop. Each connection
  attempt is foreign code, so its outcome is an input: the transport opened,
  an `OSError`, or any other exception. The loop folds a sequence of such
  outcomes into the sleeps it performed and the way it ended: connected,
  `ExceededRetryCount`, an escaped exception, or still pending. The module
  also holds a terminating method version of the loop for an opener that
  always fails.
- `runner.dfy` (module `Runner`): the runner itself.
  - Construction, including the resolution of the `ssl` argument.
  - One `run` call, as a single-threaded sequence of events: `run` starts;
    an attempt outcome arrives; a back-off sleep ends; the registered
    connection closes; or an interrupt (SIGTERM or Ctrl-C) stops the loop.
  - Handling one event yields the next runner state and the ordered effects
    it performed: reset, attempt, sleep, callback registration, `leave()`,
    loop close.
- `errors.dfy` (module `Errors`): the `Result` and `Option` types and the
  exceptions that are modelled as values.

Intervals are `real` seconds. The sleep, the event loop, the WebSocket
transport and URL parsing are not modelled. Sleeps appear as `Sleep`
effects, and the end of a sleep is an event. Attempt outcomes and
connection losses are events supplied from outside. The URL's secure flag, host and port are constructor inputs.

Notes on the program's behaviour:

- `stop()` only stops the event loop. The `closing` flag is set, and the
  session left, by the tail of `run` (lines 190-194) after the loop has
  stopped.
- `ExceededRetryCount` stops the loop and is raised inside the connect task
  (lines 213-215). `run` then finishes normally: it marks the runner
  closing and closes the loop, without leaving a session, because there is
  no active connection at that point.
- An exception other than `OSError` from a connection attempt ends the
  connect task (line 202: nothing catches it). Nothing awaits that task, so
  the event loop keeps running with no connection and no further attempt.
  The model calls this phase `Stalled`.
- `NoRetryStrategy` does not override `get_retry_interval` or
  `increase_retry_interval`. Calling either raises `NotImplementedError`.
  The model returns that as an `Err`. The connect loop never calls them for
  this strategy, because `retry()` is false first.

## Model

| member | source | states |
|---|---|---|
| Strategies.NewBackoff | autobahn_autoreconnect/__init__.py:70-74 | a freshly built back-off strategy reports its initial interval and is already in its reset state |
| Strategies.DefaultBackoff | autobahn_autoreconnect/__init__.py:70 | the constructor defaults are an initial interval of 0.5 s, a maximum of 512 s and a factor of 2 |
| Strategies.GetRetryInterval | autobahn_autoreconnect/__init__.py:76-77 | the interval is available exactly for the back-off strategy; the no-retry strategy raises `NotImplementedError`, because it does not override the operation (lines 48-49) |
| Strategies.ResetRetryInterval | autobahn_autoreconnect/__init__.py:79-80 | a reset keeps the configuration and makes the back-off interval the initial one; it leaves the no-retry strategy unchanged (lines 61-63) |
| Strategies.IncreaseRetryInterval | autobahn_autoreconnect/__init__.py:82-83 | the increase succeeds exactly for the back-off strategy and keeps its configuration while multiplying the interval by the factor; the no-retry strategy raises `NotImplementedError`, because it does not override the operation (lines 54-55) |
| Strategies.IncreaseNInterval | autobahn_autoreconnect/__init__.py:82-83 | after k increases the interval is the starting one multiplied by factor^k |
| Strategies.IntervalAfterIncreases | autobahn_autoreconnect/__init__.py:76-83 | after a reset and k increases the interval is initial * factor^k |
| Strategies.ResetAfterIncreases | autobahn_autoreconnect/__init__.py:79-80 | a reset after any number of increases gives exactly the same strategy as a reset without them, whose interval is the initial one |
| Strategies.ResetIdempotent | autobahn_autoreconnect/__init__.py:79-80 | resetting twice equals resetting once |
| Strategies.NoRetryNeverRetries | autobahn_autoreconnect/__init__.py:61-66 | the no-retry strategy never permits a retry, and its reset is a no-op |
| Strategies.Retry | autobahn_autoreconnect/__init__.py:85-86 | `retry()` never holds for the no-retry strategy (lines 65-66); for the back-off strategy it holds exactly while the current interval is at most the maximum |
| Strategies.BackoffRetryIff | autobahn_autoreconnect/__init__.py:85-86 | the back-off strategy permits a retry if and only if its current interval is at most the maximum |
| Strategies.WaitsNonDecreasing | autobahn_autoreconnect/__init__.py:82-83 | between resets the interval never decreases when the factor is at least 1 and the initial interval is not negative |
| Strategies.GiveUpBound | autobahn_autoreconnect/__init__.py:82-86 | with a positive initial interval and a factor above 1, this number of increases takes the interval past the maximum |
| Strategies.BackoffEventuallyGivesUp | autobahn_autoreconnect/__init__.py:82-86 | with a positive initial interval and a factor above 1, some number of increases after a reset makes `retry()` false |
| Strategies.BackoffRetriesForeverWhenNotGrowing | autobahn_autoreconnect/__init__.py:82-86 | with a factor between 0 and 1 and an initial interval within the maximum, `retry()` stays true after any number of increases |
| Connecting.AttemptStep | autobahn_autoreconnect/__init__.py:201-217 | one loop iteration sleeps and retries exactly on an `OSError` that the strategy permits. The sleep is the current interval and the next strategy is the increased one. Success connects. A refused `OSError` gives up. Any other exception escapes with its name |
| Connecting.AttemptLoop | autobahn_autoreconnect/__init__.py:200-217 | the loop sleeps once per retried `OSError`, and every outcome before the last one consumed was an `OSError`. The last outcome decides the ending. The strategy left behind has been increased once per sleep |
| Connecting.Connect | autobahn_autoreconnect/__init__.py:197-217 | a connect sequence starts from the reset strategy, and the strategy it leaves has been increased once per sleep |
| Connecting.ConnectWaitsGeometric | autobahn_autoreconnect/__init__.py:199-217 | the k-th sleep of every connect sequence lasts initial * factor^k, whatever the interval was before the sequence. Every sleep was within the maximum. A no-retry strategy never sleeps |
| Connecting.SuccessKeepsInterval | autobahn_autoreconnect/__init__.py:202-205 | n permitted failures followed by a success end connected after n + 1 attempts and n sleeps. The success does not change the interval |
| Connecting.AlwaysFailing | autobahn_autoreconnect/__init__.py:206-217 | against an opener that always fails, the sequence either still retries or has raised `ExceededRetryCount`. It has raised it if and only if some interval within the attempts made is refused |
| Connecting.AlwaysFailingGivesUp | autobahn_autoreconnect/__init__.py:206-217 | with a positive initial interval and a factor above 1, an opener that always fails leads to `ExceededRetryCount` after finitely many attempts |
| Connecting.NoRetryGivesUpAtOnce | autobahn_autoreconnect/__init__.py:206-215 | with the no-retry strategy, a failing first attempt raises `ExceededRetryCount` after one attempt and no sleep |
| Connecting.OtherErrorsNotRetried | autobahn_autoreconnect/__init__.py:201-206 | an exception other than `OSError` ends the loop at once, with no sleep, for every strategy |
| Connecting.AlwaysFailingSchedule | autobahn_autoreconnect/__init__.py:200-217 | the loop run against an opener that always fails terminates within the give-up bound. Its sleeps are those of the connect sequence, which then raises `ExceededRetryCount` |
| Connecting.ThreeFailuresThenSuccess | autobahn_autoreconnect/__init__.py:206-217 | back-off(0.5, 512, 2) with three failures and then a success sleeps 0.5, 1 and 2 seconds and ends connected |
| Connecting.CapOfTwoSeconds | autobahn_autoreconnect/__init__.py:206-217 | back-off(0.5, 2, 2) with an opener that always fails sleeps 0.5, 1 and 2 seconds, then raises `ExceededRetryCount` on the fourth attempt |
| Runner.ResolveSsl | autobahn_autoreconnect/__init__.py:136-144 | the result is an error if and only if a truthy `ssl` argument meets a `ws:` URL. With no argument the result is the URL's secure flag itself. Any other argument is kept unchanged. A resolved value never asks for TLS on a `ws:` URL |
| Runner.NewRunner | autobahn_autoreconnect/__init__.py:122-144 | construction fails exactly on an `ssl` conflict. Otherwise the runner is not closing, has not started, keeps the given strategy and uses the resolved `ssl` value |
| Runner.BeginConnect | autobahn_autoreconnect/__init__.py:197-202 | a connect sequence forgets the active connection, resets the interval, then makes its first attempt; the configuration and the closing flag are kept |
| Runner.Step | autobahn_autoreconnect/__init__.py:190-224 | handling an event keeps the runner invariant and the configuration, and never clears the closing flag |
| Runner.Run | autobahn_autoreconnect/__init__.py:175-194 | a run keeps the runner invariant and the configuration, and never clears the closing flag |
| Runner.NothingAfterClosing | autobahn_autoreconnect/__init__.py:219-224 | once the runner is closing, no event leads to another reset, attempt, sleep or `leave()` |
| Runner.StepLeaves | autobahn_autoreconnect/__init__.py:183-193 | a single event leaves the session at most once, and only the event that makes the runner closing |
| Runner.LeaveAtMostOnce | autobahn_autoreconnect/__init__.py:190-193 | a run calls `leave()` at most once whatever the events, and never once the runner is closing |
| Runner.InterruptWhileConnected | autobahn_autoreconnect/__init__.py:190-194 | stopping a connected runner calls `leave()` once and closes the loop. The connection loss that follows starts no reconnect |
| Runner.InterruptIdempotent | autobahn_autoreconnect/__init__.py:226-227 | once `run` has finished and the loop is closed, another stop has no effect at all |
| Runner.InterruptWhileSleeping | autobahn_autoreconnect/__init__.py:206-217 | an interrupt during the back-off sleep closes the loop with no further attempt and leaves the interval un-increased |
| Runner.LostConnectionReconnectsIff | autobahn_autoreconnect/__init__.py:219-224 | a lost connection starts a fresh connect sequence, with a reset and a new attempt, if and only if the runner is not closing. Otherwise nothing happens |
| Runner.SuccessRegistersOneCallback | autobahn_autoreconnect/__init__.py:202-205 | a successful attempt registers exactly one close callback while none is registered, and leaves the strategy untouched |
| Runner.AttemptingFollowsLoop | autobahn_autoreconnect/__init__.py:200-217 | while attempting, fed each outcome followed by the end of its sleep, the runner sleeps exactly the connect loop's sleeps, makes one more attempt per sleep, and ends in the phase matching the loop's ending |
| Runner.StartRunsConnect | autobahn_autoreconnect/__init__.py:175 | starting a run performs a whole connect sequence from the reset strategy: the reset comes first, the sleeps are those of `Connect`, there is one attempt more than there are sleeps, and the run ends in the phase matching the sequence's ending with the strategy it leaves |
| Runner.ReconnectRestartsWaits | autobahn_autoreconnect/__init__.py:219-224 | the reconnect after a lost connection performs a whole connect sequence from the reset strategy, so its waits restart at the initial interval however far the previous sequence grew it; its attempts, ending phase and final strategy are those of `Connect` |

## Left out

- The WAMP and WebSocket machinery (`WampWebSocketClientFactory`, `ComponentConfig`, protocol options, the session factory in `run`) is foreign code. Attempt outcomes and connection losses are events, and whether the active connection has a session is a flag on the interrupt event.
- URL parsing (`parseWsUrl`) is foreign code. Its secure flag, host and port are inputs.
- The asyncio event loop, `asyncio.sleep`, the SIGTERM handler, `KeyboardInterrupt` and `loop.close` are scheduling plumbing. They appear as events and effects of one sequential trace.
- `_reconnect` schedules a new `_connect` task instead of running it. The model starts the new sequence (clearing the active connection, resetting, attempting) in the same step that handles the lost connection.
- `_active_protocol` is first assigned inside `_connect`, not in the constructor. The model does not represent the `AttributeError` that an interrupt arriving before the first connect task runs would cause.
- An interrupt before `run` or after the loop is closed is treated as having no effect.
- Runner.InterruptIdempotent: holds only after `run` has returned. The tail of `run` runs the loop again to leave the session (line 193) while the SIGTERM handler is still installed. A second SIGTERM there makes `run_until_complete` raise `RuntimeError`, and a second Ctrl-C raises `KeyboardInterrupt`. In both cases `loop.close()` (line 194) is skipped. The model handles the whole tail of `run` in the step of the first interrupt.
- A second call of `run` is treated as having no effect. In the program it meets the loop closed by line 194 and raises `RuntimeError`.
- Only the two built-in strategies are modelled. `retry_strategy` accepts any `IReconnectStrategy` subclass (lines 47-58, 91-92), including `IReconnectStrategy` itself, whose `reset_retry_interval` raises `NotImplementedError` at line 199 before any attempt. Connecting.ConnectWaitsGeometric's "every sleep within the maximum" holds for the built-in strategies only.
- Floating-point rounding of intervals is not modelled. Intervals are exact reals.
- The default `retry_strategy=BackoffStrategy()` is evaluated once, so every runner built without its own strategy shares one mutable strategy object. Each modelled runner owns its own strategy value, so this aliasing is not represented.
- Log output (`print`) is not modelled.
- `example.py` (a demo component) and `setup.py` (packaging) contain no logic of the reconnect layer.
