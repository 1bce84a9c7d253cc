# iOSRealRun-cli `main()`: session lifecycle and crash-safe teardown

This project models `main()` of main.py, which orchestrates a running session in the
iOS location simulator. In order, `main()`:

- overrides the configured route file and velocity with any command-line values;
- runs `init.init()`;
- ignores SIGINT while `tunnel.tunnel()` starts the tunnel process, then puts the
  previous handler back;
- inside an outer `try`, loads the route, opens the RSD connection and the DVT
  channel with two nested `with` blocks, and runs the simulation under an inner
  `try` whose `finally` clears the spoofed location;
- in the outer `finally`, terminates the tunnel process and prints "Bye".

The model has four modules:

- `Semantics` is a small language of the Python statements `main()` uses: a
  fallible call, an infallible call, sequencing, `try`/`except K: pass`,
  `try`/`finally`, and a `with` block whose `__exit__` never suppresses an
  exception. Each call site raises or returns as a *fault map* says. `Exec`
  evaluates a statement to its trace of issued calls and its completion, which
  is normal or an escaping exception. The lemmas here state what each
  construct guarantees:
  - `__exit__` and `finally` run on every path;
  - an exception raised while cleaning up replaces the pending one;
  - `except` swallows only its own kind;
  - no exception escapes that some issued call did not raise;
  - no call is issued more often than it is written.
- `Config` models the truthiness-guarded overrides of lines 50-54.
- `MainFlow` writes lines 64-104 as one statement, `MainBody`. It gives a flat,
  case-by-case reference for its trace and completion under every fault map,
  proves the two equal, and proves the lifecycle guarantees from that reference:
  - SIGINT is masked exactly around the tunnel start;
  - the tunnel is terminated exactly once once it has started;
  - the location is cleared exactly once exactly when the DVT channel was opened;
  - the clear happens before the channels close and before the tunnel is terminated;
  - "Bye" comes last;
  - interrupts never escape, and other exceptions propagate.
- `App` is the imperative procedure. A class `Program` holds the configuration
  fields, the process-wide SIGINT handler, a flag for the tunnel process and the
  trace of calls issued. Its `Execute` method follows the source statement by
  statement. It is proved to leave the overridden settings, to issue exactly the
  trace of `MainBody` and complete as `MainBody` does, and to leave the handler
  and process flag as the code does.

A fault map stands in for everything the external calls might do. Faults are
`KeyboardInterrupt` or any other exception.

## Model

| member | source | states |
|---|---|---|
| Config.Overridden | main.py:50-54 | a truthy command-line route or velocity replaces the configured field, a missing, empty or zero one leaves it unchanged, and a field never changes to anything but the value given for it |
| Config.ZeroVelocityIsNoOverride | main.py:53-54 | a velocity of 0.0 on the command line behaves exactly like no velocity and keeps the configured one |
| Config.EmptyRouteIsNoOverride | main.py:50-51 | an empty route on the command line behaves exactly like no route |
| Semantics.Exec | main.py:64-104 | the evaluator of the statements `main()` is written in (a call that returns or raises as the fault map says, sequencing, `try`/`except`, `try`/`finally`, `with`); it has no contract of its own, and the Semantics lemmas below state what it guarantees |
| Semantics.WithExitOnEveryPath | main.py:80-81 | a `with` block issues `__enter__` first; if entering fails nothing else runs, otherwise the body's calls follow and `__exit__` is the last call on every path; with a quiet exit the block completes as its body does, and an exception raised by `__exit__` replaces the body's completion |
| Semantics.FinallyOnEveryPath | main.py:90-104 | a `finally` body runs completely after the `try` body on every path; if it completes normally the `try` body's completion stands, otherwise its exception replaces it |
| Semantics.ExceptSwallowsOnlyItsKind | main.py:87-97 | `except K: pass` passes the body's trace through, turns a raised `K` into a normal completion, never lets a `K` escape, and leaves every other completion unchanged |
| Semantics.IssuedAtMostAsWritten | main.py:64-104 | no statement issues any call more often than the call sites written in it |
| Semantics.EscapingExceptionWasRaised | main.py:64-104 | an exception escaping a statement is the fault of some call site the statement actually issued |
| MainFlow.GuardedOutcome | main.py:82-93 | `Guarded`, the inner `try`/`except KeyboardInterrupt`/`finally`, always issues the run and then the clear; an interrupt of the run is swallowed, another exception of the run propagates, and an exception of the clear replaces either |
| MainFlow.DvtBlockOutcome | main.py:81-93 | `DvtBlock`: a failing DVT open issues nothing more and raises; otherwise the guarded run and clear are followed by the DVT exit, whose exception replaces the pending completion |
| MainFlow.RsdBlockOutcome | main.py:80-93 | `RsdBlock`: a failing RSD open issues nothing more and raises; otherwise the DVT block is followed by the RSD exit, whose exception replaces the pending completion |
| MainFlow.TryBodyOutcome | main.py:74-93 | `TryBody`, the route load and the two `with` blocks, evaluates to the reference trace `TryEffects` and completion `TryBodyCompletion` |
| MainFlow.SessionOutcome | main.py:73-104 | `Session`, the outer `try`/`except`/`finally`, issues the `try` body's trace followed by the terminate and "Bye", and completes as the body does except that an interrupt becomes a normal return |
| MainFlow.MaskedOutcome | main.py:69-104 | `Masked`: the SIGINT mask and the tunnel start; a failing start issues nothing after it and raises, otherwise the restore comes right after it and the session follows |
| MainFlow.ExpectedEffects | main.py:64-104 | the flat reference trace of `main()`, case by case on the first call that fails; it has no contract of its own, MainFlow.ExpectedEffectsShape and MainFlow.MainMatchesReference state its meaning |
| MainFlow.ExpectedEffectsShape | main.py:64-104 | the reference trace always starts with `init.init()`, ends with the terminate and "Bye" once the outer `try` is entered, and contains neither when a startup call failed |
| MainFlow.TryEffects | main.py:74-93 | the flat reference trace of the outer `try` body; it has no contract of its own, MainFlow.TryEffectsShape and MainFlow.TryBodyOutcome state its meaning |
| MainFlow.TryEffectsShape | main.py:74-93 | the `try` body's trace starts with the route load, ends with the RSD exit once the RSD connection was entered, and contains the clear exactly when the DVT channel was entered |
| MainFlow.TryBodyCompletion | main.py:74-93 | the pending completion when the outer `try` body ends, by the first site that fails; it has no contract of its own, MainFlow.TryBodyNormalIff states its meaning |
| MainFlow.TryBodyNormalIff | main.py:74-93 | the outer `try` body completes normally exactly when every fault inside it is an interrupt of `run.run` |
| MainFlow.ExpectedCompletion | main.py:64-104 | the reference completion of `main()`; it has no contract of its own, MainFlow.ExpectedCompletionShape and MainFlow.MainMatchesReference state its meaning |
| MainFlow.ExpectedCompletionShape | main.py:64-104 | by the reference, a failing startup call always raises, and once the outer `try` is entered an interrupt never escapes |
| MainFlow.MainMatchesReference | main.py:64-104 | under every fault map, evaluating `main()`'s statement yields exactly the flat reference trace and completion: startup failures stop at once, and after tunnel start the outer `try` body's calls are followed by the terminate and "Bye" |
| MainFlow.SigintMaskedAroundTunnel | main.py:69-71 | once init succeeds, SIGINT is ignored right before the tunnel start and restored right after it returns; if the tunnel start raises, neither the restore nor a terminate is issued and its exception propagates |
| MainFlow.TerminateExactlyOnce | main.py:73-103 | `process.terminate()` is issued exactly once when the tunnel start returned, whatever fails afterwards, and never otherwise |
| MainFlow.ClearExactlyOnceIffDvtEntered | main.py:81-93 | the location is cleared exactly once if the DVT channel was opened and never otherwise, whether `run.run` returns, is interrupted or fails |
| MainFlow.EffectsWhenDvtEntered | main.py:64-104 | a run that opens the DVT channel issues every call of `main()` exactly once, in program order |
| MainFlow.ClearWhileChannelsOpen | main.py:80-93 | on a run that opened the DVT channel, the RSD connection opens before the DVT channel, which opens before the clear, which comes before the DVT channel closes and before the RSD connection closes |
| MainFlow.ClearBeforeCloseBeforeTerminate | main.py:90-102 | on a run that opened the DVT channel, the clear comes before the DVT channel closes, that before the RSD connection closes, and that before the tunnel process is terminated |
| MainFlow.EarlyFailureStillTerminates | main.py:77-104 | if the route load, the RSD connection or the DVT channel fails, nothing is cleared, yet the tunnel is still terminated and "Bye" printed |
| MainFlow.ByeIsLast | main.py:98-104 | once the outer `try` is entered, "Bye" is the last call and the terminate comes right before it |
| MainFlow.StartupFailurePropagates | main.py:64-70 | a failing `init.init()` or `tunnel.tunnel()` propagates its own exception out of `main()` |
| MainFlow.InterruptNeverEscapes | main.py:87-97 | once the outer `try` is entered, a `KeyboardInterrupt` never escapes `main()` |
| MainFlow.InterruptsReturnNormally | main.py:73-104 | when every fault inside the outer `try` is an interrupt, `main()` returns normally |
| MainFlow.OtherExceptionPropagates | main.py:73-104 | when the faults inside the outer `try` are all other exceptions, `main()` raises one exactly when some call there raised, and returns normally otherwise |
| MainFlow.TryEffectsCounts | main.py:74-93 | the outer `try` body never terminates the tunnel or prints "Bye", and clears the location once exactly when the route, RSD and DVT steps all succeed |
| MainFlow.ExpectedCounts | main.py:64-104 | each call's count in a run that entered the outer `try` is the sum of its counts in the startup prefix, the `try` body and the `finally` |
| App.Program.ApplyOverrides | main.py:50-54 | the configuration fields become the overridden settings of the old ones |
| App.Program.Step | main.py:64-93 | one external call (init, tunnel start, route load, a `with` enter or exit, the run, the clear) is appended to the trace, and its completion is the raise or return the fault map gives for it |
| App.Program.SetSigint | main.py:69-71 | `signal.signal` installs the given SIGINT handler, returns the one it replaced, and records the call |
| App.Program.TerminateProcess | main.py:102 | `process.terminate()` leaves the tunnel process stopped, whether or not it was running, and records the call |
| App.Program.RunGuarded | main.py:82-93 | issues the run, the clear and the DVT exit; the pending completion is the inner `try`'s, replaced by the DVT exit's exception if that raises |
| App.Program.OuterTry | main.py:74-93 | issues exactly the outer `try` body's reference trace and ends with its reference completion |
| App.Program.RunSession | main.py:73-104 | issues exactly the trace of the outer `try`/`except`/`finally`, completes as it does, and leaves the tunnel process terminated |
| App.Program.Execute | main.py:50-104 | overrides the settings, issues exactly `main()`'s trace and completes as `main()` does; SIGINT stays ignored only when the tunnel start raised and is otherwise back to the original handler; the tunnel process is left terminated whenever it was started |

## Left out

- Logging and `coloredlogs` setup, the `DEBUG` environment variable, and the `process.is_alive()` debug lines: none of these changes control flow.
- `parse_args` and argparse: the model takes the parsed arguments as its input.
- The internals of `init.init`, `tunnel.tunnel`, `route.get_route`, `run.run`, `location.clear_location` and the RSD/DVT services: each is one call site that returns or raises as the fault map says. run.py, init/ and driver/ are not part of this model.
- The addresses, ports, route and channel objects passed between calls: only the order and outcome of the calls are modelled.
- Real operating-system signal delivery and processes: the SIGINT handler is a value and the tunnel process a flag.
- Interrupts arriving at arbitrary statements: a `KeyboardInterrupt` can only come from a call site. An interrupt inside a `finally` or between statements is not modelled.
- Velocity is a real, not a float: NaN, infinities and rounding are not modelled. Both `0.0` and `-0.0` are the real zero, which is falsy as in Python.
- The `__exit__` methods of the RSD and DVT services are modelled as never suppressing an exception. They may raise.
- `signal.signal`, `process.terminate()` and `print("Bye")` are modelled as never raising.
- The console messages on lines 83-85 are not effects.
- Configuration fields other than `routeConfig` and `v`: config.py is not part of this model.
- Semantics.IssuedAtMostAsWritten is proved for every statement, but it is not specialised into a per-call "at most once" statement about `main()`. For runs that open the DVT channel, MainFlow.EffectsWhenDvtEntered gives the whole trace.
- SIGINT after a failing tunnel start: the code has no `try` around `tunnel.tunnel()`, so when it raises, SIGINT stays ignored as the exception propagates. A design that restores the handler on success or failure would differ. The model follows the code (see App.Program.Execute).
