/**
 `main()` of main.py as the imperative procedure it is: the global
 configuration fields it overrides, the process-wide SIGINT handler it swaps
 and restores, the tunnel process it starts and terminates, and the trace of
 external calls it makes. Each external call either returns or raises, as
 the fault map says; the method follows the source's `try`, `with`,
 `except` and `finally` by hand and is proved to issue exactly the effects,
 and to complete exactly as, the evaluation of MainFlow.MainBody.
 */
module App {
  import opened Semantics
  import opened MainFlow
  import opened Config

  /** A SIGINT disposition: the default, ignored, or some installed handler. */
  datatype SigHandler = DefaultAction | Ignored | Installed(id: nat)

  class Program {
    // config.config
    var routeConfig: string
    var v: real
    // the process-wide SIGINT handler
    var sigint: SigHandler
    // whether the tunnel process started by tunnel.tunnel() is running
    var processAlive: bool
    // the external calls issued so far
    var trace: seq<Effect>

    constructor (routeConfig: string, v: real, sigint: SigHandler)
      ensures this.routeConfig == routeConfig && this.v == v && this.sigint == sigint
      ensures !processAlive && trace == []
    {
      this.routeConfig := routeConfig;
      this.v := v;
      this.sigint := sigint;
      processAlive := false;
      trace := [];
    }

    function Current(): Settings
      reads this
    {
      Settings(routeConfig, v)
    }

    /** Lines 50-54: command-line values replace the configured ones when truthy. */
    method ApplyOverrides(args: Args)
      modifies this`routeConfig, this`v
      ensures Current() == Overridden(old(Current()), args)
    {
      if RouteGiven(args.route) {
        routeConfig := args.route.value;
      }
      if VelocityGiven(args.velocity) {
        v := args.velocity.value;
      }
    }

    /** One external call that returns or raises as `faults` says. */
    method Step(site: Effect, faults: Faults) returns (c: Completion)
      modifies this`trace
      ensures trace == old(trace) + [site]
      ensures c == CallResult(site, faults)
    {
      trace := trace + [site];
      c := CallResult(site, faults);
    }

    /** `signal.signal(SIGINT, handler)`: installs `handler`, returns the previous one. */
    method SetSigint(handler: SigHandler, step: Effect) returns (previous: SigHandler)
      modifies this`sigint, this`trace
      ensures previous == old(sigint) && sigint == handler
      ensures trace == old(trace) + [step]
    {
      previous := sigint;
      sigint := handler;
      trace := trace + [step];
    }

    /** `process.terminate()`: harmless on a process that is not running. */
    method TerminateProcess()
      modifies this`processAlive, this`trace
      ensures !processAlive
      ensures trace == old(trace) + [Terminate]
    {
      processAlive := false;
      trace := trace + [Terminate];
    }

    /** Lines 82-93, inside both `with` blocks: `run.run`, its `except
        KeyboardInterrupt`, the `finally` that clears the location, and the
        DVT channel's exit. */
    method RunGuarded(faults: Faults) returns (pending: Completion)
      modifies this`trace
      ensures trace == old(trace) + [Run, ClearLocation, CloseDvt]
      ensures pending == Override(faults, CloseDvt, Exec(Guarded, faults).completion)
    {
      GuardedOutcome(faults);
      pending := Step(Run, faults);
      if pending == Raised(KeyboardInterrupt) {
        pending := Normal;  // except KeyboardInterrupt, line 87
      }
      var cleared := Step(ClearLocation, faults);  // finally, line 90
      if cleared.Raised? {
        pending := cleared;
      }
      var dvtExit := Step(CloseDvt, faults);
      if dvtExit.Raised? {
        pending := dvtExit;
      }
    }

    /** Lines 74-93: the body of the outer `try`. */
    method OuterTry(faults: Faults) returns (pending: Completion)
      modifies this`trace
      ensures trace == old(trace) + TryEffects(faults)
      ensures pending == TryBodyCompletion(faults)
    {
      GuardedOutcome(faults);
      pending := Step(GetRoute, faults);
      if pending.Normal? {
        pending := Step(OpenRsd, faults);
        if pending.Normal? {
          pending := Step(OpenDvt, faults);
          if pending.Normal? {
            pending := RunGuarded(faults);
          }
          var rsdExit := Step(CloseRsd, faults);
          if rsdExit.Raised? {
            pending := rsdExit;
          }
        }
      }
    }

    /** Lines 73-104: the outer `try`, its `except KeyboardInterrupt` and its `finally`. */
    method RunSession(faults: Faults) returns (c: Completion)
      modifies this`trace, this`processAlive
      ensures trace == old(trace) + Exec(Session, faults).effects
      ensures c == Exec(Session, faults).completion
      ensures !processAlive
    {
      SessionOutcome(faults);
      c := OuterTry(faults);
      if c == Raised(KeyboardInterrupt) {
        c := Normal;  // except KeyboardInterrupt, line 96
      }
      // finally, lines 98-104
      TerminateProcess();
      trace := trace + [PrintBye];
    }

    /** Lines 50-104. */
    method Execute(args: Args, faults: Faults) returns (c: Completion)
      modifies this
      ensures Current() == Overridden(old(Current()), args)
      ensures trace == old(trace) + Exec(MainBody, faults).effects
      ensures c == Exec(MainBody, faults).completion
      // the handler stays ignored only when tunnel.tunnel() raised
      ensures sigint == if Init !in faults && TunnelStart in faults then Ignored else old(sigint)
      ensures processAlive == if TunnelReturned(faults) then false else old(processAlive)
    {
      ApplyOverrides(args);
      MaskedOutcome(faults);
      assert Exec(Call(Init), faults) == Outcome([Init], CallResult(Init, faults));

      c := Step(Init, faults);
      if c.Raised? {
        return;
      }
      var original := SetSigint(Ignored, SigIgnore);
      c := Step(TunnelStart, faults);
      if c.Raised? {
        return;
      }
      processAlive := true;
      var _ := SetSigint(original, SigRestore);
      c := RunSession(faults);
    }
  }
}
