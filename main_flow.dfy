/**
 The control flow of `main()` in main.py from `init.init()` on, written as a
 statement of the Semantics language, and the guarantees its nesting of
 `try`, `with` and `finally` gives: the tunnel process is terminated exactly
 once once it has been started, the location is cleared exactly once exactly
 when the developer channel was opened, and the clear comes before the
 channels close and before the tunnel is terminated.
 */
module MainFlow {
  import opened Semantics

  /** The external calls of `main()`, in the order they appear in the code. */
  datatype Effect =
    | Init           // init.init()
    | SigIgnore      // signal.signal(SIGINT, SIG_IGN), saving the old handler
    | TunnelStart    // tunnel.tunnel(), yielding the process, address and port
    | SigRestore     // signal.signal(SIGINT, original_sigint_handler)
    | GetRoute       // route.get_route()
    | OpenRsd        // entering RemoteServiceDiscoveryService((address, port))
    | OpenDvt        // entering DvtSecureSocketProxyService(rsd)
    | Run            // run.run(dvt, loc, config.config.v)
    | ClearLocation  // location.clear_location(dvt)
    | CloseDvt       // leaving the DvtSecureSocketProxyService block
    | CloseRsd       // leaving the RemoteServiceDiscoveryService block
    | Terminate      // process.terminate()
    | PrintBye       // print("Bye")

  /** Which call sites raise, and what. */
  type Faults = map<Effect, Exc>

  /** Lines 82-93: `try: run.run(...)` / `except KeyboardInterrupt` / `finally: clear_location`. */
  const Guarded: Stmt<Effect> :=
    TryFinally(TryExcept(Call(Run), KeyboardInterrupt, Skip), Call(ClearLocation))

  /** Line 81: the DVT channel, opened over the RSD connection. */
  const DvtBlock: Stmt<Effect> := With(OpenDvt, CloseDvt, Guarded)

  /** Line 80: the RSD connection to the tunnel's address and port. */
  const RsdBlock: Stmt<Effect> := With(OpenRsd, CloseRsd, DvtBlock)

  /** Lines 74-93: the body of the outer `try`. */
  const TryBody: Stmt<Effect> := Seq(Call(GetRoute), RsdBlock)

  /** Lines 98-104: the outer `finally`. */
  const Cleanup: Stmt<Effect> := Seq(Do(Terminate), Do(PrintBye))

  /** Lines 73-104: `try` / `except KeyboardInterrupt` / `finally`. */
  const Session: Stmt<Effect> :=
    TryFinally(TryExcept(TryBody, KeyboardInterrupt, Skip), Cleanup)

  /** Lines 69-104: the SIGINT mask around `tunnel.tunnel()`, then the session. */
  const Masked: Stmt<Effect> :=
    Seq(Do(SigIgnore), Seq(Call(TunnelStart), Seq(Do(SigRestore), Session)))

  /** Lines 64-104. */
  const MainBody: Stmt<Effect> := Seq(Call(Init), Masked)

  /** `tunnel.tunnel()` returned, so the outer `try` at line 73 was entered. */
  predicate TunnelReturned(f: Faults)
  {
    Init !in f && TunnelStart !in f
  }

  /** The `with DvtSecureSocketProxyService(rsd) as dvt` block was entered. */
  predicate DvtEntered(f: Faults)
  {
    TunnelReturned(f) && GetRoute !in f && OpenRsd !in f && OpenDvt !in f
  }

  /** The call sites inside the outer `try`. */
  predicate InTry(e: Effect)
  {
    e in {GetRoute, OpenRsd, OpenDvt, Run, ClearLocation, CloseDvt, CloseRsd}
  }

  /** `a` is issued, and later `b` is issued. */
  predicate Before(a: Effect, b: Effect, s: seq<Effect>)
  {
    exists i, j :: 0 <= i < j < |s| && s[i] == a && s[j] == b
  }

  function Override(f: Faults, site: Effect, pending: Completion): Completion
  {
    if site in f then Raised(f[site]) else pending
  }

  /**
   A flat reference for the effects of `main()`, case by case on the first
   call that fails: read top to bottom, each case says what has been issued
   when that call raises.
   */
  function ExpectedEffects(f: Faults): seq<Effect>
  {
    if Init in f then [Init]
    else if TunnelStart in f then [Init, SigIgnore, TunnelStart]
    else [Init, SigIgnore, TunnelStart, SigRestore] + TryEffects(f) + [Terminate, PrintBye]
  }

  /** The effects of the outer `try` body, lines 74-93. */
  function TryEffects(f: Faults): seq<Effect>
  {
    if GetRoute in f then [GetRoute]
    else if OpenRsd in f then [GetRoute, OpenRsd]
    else if OpenDvt in f then [GetRoute, OpenRsd, OpenDvt, CloseRsd]
    else [GetRoute, OpenRsd, OpenDvt, Run, ClearLocation, CloseDvt, CloseRsd]
  }

  /** The exception pending when the outer `try` body ends (before its `except`). */
  function TryBodyCompletion(f: Faults): Completion
  {
    if GetRoute in f then Raised(f[GetRoute])
    else if OpenRsd in f then Raised(f[OpenRsd])
    else if OpenDvt in f then Override(f, CloseRsd, Raised(f[OpenDvt]))
    else
      var afterRun := if Run in f && f[Run] == OtherException then Raised(OtherException) else Normal;
      Override(f, CloseRsd, Override(f, CloseDvt, Override(f, ClearLocation, afterRun)))
  }

  /** Every run starts with `init.init()`; once the outer `try` is entered it
      ends with the termination and "Bye", and otherwise issues neither. */
  lemma ExpectedEffectsShape(f: Faults)
    ensures var r := ExpectedEffects(f);
            && |r| >= 1 && r[0] == Init
            && (TunnelReturned(f) ==> |r| >= 2 && r[|r| - 2..] == [Terminate, PrintBye])
            && (!TunnelReturned(f) ==> Terminate !in r && PrintBye !in r)
  {
  }

  /** The outer `try` body starts with the route load, ends with the RSD exit
      once the RSD connection was entered, and clears the location exactly
      when the DVT channel was entered. */
  lemma TryEffectsShape(f: Faults)
    ensures var r := TryEffects(f);
            && |r| >= 1 && r[0] == GetRoute
            && (GetRoute !in f && OpenRsd !in f ==> r[|r| - 1] == CloseRsd)
            && (ClearLocation in r <==> GetRoute !in f && OpenRsd !in f && OpenDvt !in f)
  {
  }

  /** A failing startup call always raises; once the outer `try` is entered,
      an interrupt never escapes. */
  lemma ExpectedCompletionShape(f: Faults)
    ensures !TunnelReturned(f) ==> ExpectedCompletion(f).Raised?
    ensures TunnelReturned(f) ==> ExpectedCompletion(f) != Raised(KeyboardInterrupt)
  {
  }

  /** The outer `try` body completes normally exactly when its only fault,
      if any, is an interrupt of `run.run`. */
  lemma TryBodyNormalIff(f: Faults)
    ensures TryBodyCompletion(f) == Normal <==>
            forall e :: e in f && InTry(e) ==> e == Run && f[e] == KeyboardInterrupt
  {
    if forall e :: e in f && InTry(e) ==> e == Run && f[e] == KeyboardInterrupt {
      assert InTry(GetRoute) && InTry(OpenRsd) && InTry(OpenDvt) && InTry(ClearLocation);
      assert InTry(CloseDvt) && InTry(CloseRsd);
    }
  }

  /** How `main()` completes, according to the reference. */
  function ExpectedCompletion(f: Faults): Completion
  {
    if Init in f then Raised(f[Init])
    else if TunnelStart in f then Raised(f[TunnelStart])
    else if TryBodyCompletion(f) == Raised(KeyboardInterrupt) then Normal
    else TryBodyCompletion(f)
  }

  // ---- evaluation of the nested blocks, from the inside out ----

  lemma GuardedOutcome(f: Faults)
    ensures Exec(Guarded, f).effects == [Run, ClearLocation]
    ensures Exec(Guarded, f).completion ==
            Override(f, ClearLocation,
                     if Run in f && f[Run] == OtherException then Raised(OtherException) else Normal)
  {
    var run := Exec(Call(Run), f);
    assert run == Outcome([Run], CallResult(Run, f));
    var caught := Exec(TryExcept(Call(Run), KeyboardInterrupt, Skip), f);
    assert Exec(Skip, f) == Outcome([], Normal);
    assert [Run] + [] == [Run];
    assert caught == if run.completion == Raised(KeyboardInterrupt) then Outcome([Run], Normal) else run;
    var clear := Exec(Call(ClearLocation), f);
    assert clear == Outcome([ClearLocation], CallResult(ClearLocation, f));
    assert Exec(Guarded, f) ==
           Outcome(caught.effects + clear.effects,
                   if clear.completion.Raised? then clear.completion else caught.completion);
  }

  lemma DvtBlockOutcome(f: Faults)
    ensures OpenDvt in f ==> Exec(DvtBlock, f) == Outcome([OpenDvt], Raised(f[OpenDvt]))
    ensures OpenDvt !in f ==>
            Exec(DvtBlock, f) == Outcome([OpenDvt, Run, ClearLocation, CloseDvt],
                                         Override(f, CloseDvt, Exec(Guarded, f).completion))
  {
    GuardedOutcome(f);
    if OpenDvt !in f {
      assert [OpenDvt] + [Run, ClearLocation] + [CloseDvt] == [OpenDvt, Run, ClearLocation, CloseDvt];
    }
  }

  lemma RsdBlockOutcome(f: Faults)
    ensures OpenRsd in f ==> Exec(RsdBlock, f) == Outcome([OpenRsd], Raised(f[OpenRsd]))
    ensures OpenRsd !in f ==>
            Exec(RsdBlock, f) == Outcome([OpenRsd] + Exec(DvtBlock, f).effects + [CloseRsd],
                                         Override(f, CloseRsd, Exec(DvtBlock, f).completion))
  {
  }

  lemma TryBodyOutcome(f: Faults)
    ensures Exec(TryBody, f).completion == TryBodyCompletion(f)
    ensures Exec(TryBody, f).effects == TryEffects(f)
  {
    var route := Exec(Call(GetRoute), f);
    assert route == Outcome([GetRoute], CallResult(GetRoute, f));
    if GetRoute !in f {
      var rsd := Exec(RsdBlock, f);
      assert Exec(TryBody, f) == Outcome([GetRoute] + rsd.effects, rsd.completion);
      RsdBlockOutcome(f);
      if OpenRsd !in f {
        DvtBlockOutcome(f);
        GuardedOutcome(f);
        if OpenDvt in f {
          assert [GetRoute] + ([OpenRsd] + [OpenDvt] + [CloseRsd]) == [GetRoute, OpenRsd, OpenDvt, CloseRsd];
        } else {
          assert [GetRoute] + ([OpenRsd] + [OpenDvt, Run, ClearLocation, CloseDvt] + [CloseRsd])
              == [GetRoute, OpenRsd, OpenDvt, Run, ClearLocation, CloseDvt, CloseRsd];
        }
      }
    }
  }

  lemma SessionOutcome(f: Faults)
    ensures Exec(Session, f).completion ==
            if TryBodyCompletion(f) == Raised(KeyboardInterrupt) then Normal else TryBodyCompletion(f)
    ensures Exec(Session, f).effects == TryEffects(f) + [Terminate, PrintBye]
  {
    var body := Exec(TryBody, f);
    TryBodyOutcome(f);
    var caught := Exec(TryExcept(TryBody, KeyboardInterrupt, Skip), f);
    assert Exec(Skip, f) == Outcome([], Normal);
    assert body.effects + [] == body.effects;
    assert caught.effects == body.effects;
    assert caught.completion ==
           if body.completion == Raised(KeyboardInterrupt) then Normal else body.completion;
    var cleanup := Exec(Cleanup, f);
    assert Exec(Do(Terminate), f) == Outcome([Terminate], Normal);
    assert Exec(Do(PrintBye), f) == Outcome([PrintBye], Normal);
    assert [Terminate] + [PrintBye] == [Terminate, PrintBye];
    assert cleanup == Outcome([Terminate, PrintBye], Normal);
    assert Exec(Session, f) == Outcome(caught.effects + cleanup.effects, caught.completion);
  }

  /** Lines 69-104, after `init.init()` returned. */
  lemma MaskedOutcome(f: Faults)
    ensures TunnelStart in f ==>
            Exec(Masked, f) == Outcome([SigIgnore, TunnelStart], Raised(f[TunnelStart]))
    ensures TunnelStart !in f ==>
            Exec(Masked, f) == Outcome([SigIgnore, TunnelStart, SigRestore] + Exec(Session, f).effects,
                                       Exec(Session, f).completion)
  {
    var session := Exec(Session, f);
    var restore := Exec(Seq(Do(SigRestore), Session), f);
    assert Exec(Do(SigRestore), f) == Outcome([SigRestore], Normal);
    assert restore == Outcome([SigRestore] + session.effects, session.completion);
    var tunnel := Exec(Seq(Call(TunnelStart), Seq(Do(SigRestore), Session)), f);
    assert Exec(Call(TunnelStart), f) == Outcome([TunnelStart], CallResult(TunnelStart, f));
    assert tunnel == if TunnelStart in f then Outcome([TunnelStart], Raised(f[TunnelStart]))
                     else Outcome([TunnelStart] + restore.effects, restore.completion);
    assert Exec(Do(SigIgnore), f) == Outcome([SigIgnore], Normal);
    assert Exec(Masked, f) == Outcome([SigIgnore] + tunnel.effects, tunnel.completion);
  }

  /** The nested `try`/`with`/`finally` of main.py evaluates to the flat reference. */
  lemma MainMatchesReference(f: Faults)
    ensures Exec(MainBody, f).effects == ExpectedEffects(f)
    ensures Exec(MainBody, f).completion == ExpectedCompletion(f)
  {
    var masked := Exec(Masked, f);
    MaskedOutcome(f);
    assert Exec(Call(Init), f) == Outcome([Init], CallResult(Init, f));
    assert Exec(MainBody, f) == if Init in f then Outcome([Init], Raised(f[Init]))
                                else Outcome([Init] + masked.effects, masked.completion);
    if TunnelReturned(f) {
      SessionOutcome(f);
      TryBodyOutcome(f);
      assert [Init] + ([SigIgnore, TunnelStart, SigRestore] + (TryEffects(f) + [Terminate, PrintBye]))
          == [Init, SigIgnore, TunnelStart, SigRestore] + TryEffects(f) + [Terminate, PrintBye];
    }
  }

  // ---- the guarantees ----

  /** What the outer `try` body issues, by the reference. */
  lemma TryEffectsCounts(f: Faults)
    ensures Terminate !in TryEffects(f) && PrintBye !in TryEffects(f)
    ensures multiset(TryEffects(f))[ClearLocation] ==
            if GetRoute !in f && OpenRsd !in f && OpenDvt !in f then 1 else 0
  {
    var mid := TryEffects(f);
    if GetRoute in f {
      assert mid == [GetRoute];
    } else if OpenRsd in f {
      assert mid == [GetRoute, OpenRsd];
    } else if OpenDvt in f {
      assert mid == [GetRoute, OpenRsd, OpenDvt, CloseRsd];
    } else {
      assert mid == [GetRoute, OpenRsd, OpenDvt, Run, ClearLocation, CloseDvt, CloseRsd];
    }
  }

  /** Counting in the reference: prefix, `try` body and `finally`, separately. */
  lemma ExpectedCounts(f: Faults, e: Effect)
    requires TunnelReturned(f)
    ensures multiset(ExpectedEffects(f))[e] ==
            multiset([Init, SigIgnore, TunnelStart, SigRestore])[e]
            + multiset(TryEffects(f))[e] + multiset([Terminate, PrintBye])[e]
  {
    var pre, mid, post := [Init, SigIgnore, TunnelStart, SigRestore], TryEffects(f), [Terminate, PrintBye];
    assert multiset(pre + mid + post) == multiset(pre) + multiset(mid) + multiset(post);
  }

  /** SIGINT is ignored immediately before `tunnel.tunnel()` and restored
      immediately after it returns; if it raises, nothing more runs: neither
      the restore nor the termination of a process that was never returned. */
  lemma SigintMaskedAroundTunnel(f: Faults)
    requires Init !in f
    ensures var eff := Exec(MainBody, f).effects;
            && |eff| >= 3 && eff[1] == SigIgnore && eff[2] == TunnelStart
            && (TunnelStart !in f ==> |eff| >= 4 && eff[3] == SigRestore)
            && (TunnelStart in f ==> |eff| == 3 && SigRestore !in eff && Terminate !in eff)
            && (TunnelStart in f ==> Exec(MainBody, f).completion == Raised(f[TunnelStart]))
  {
    MainMatchesReference(f);
  }

  /** `process.terminate()` runs exactly once when `tunnel.tunnel()` has
      returned, whatever happens afterwards, and never otherwise. */
  lemma TerminateExactlyOnce(f: Faults)
    ensures multiset(Exec(MainBody, f).effects)[Terminate] == if TunnelReturned(f) then 1 else 0
  {
    MainMatchesReference(f);
    if TunnelReturned(f) {
      ExpectedCounts(f, Terminate);
      TryEffectsCounts(f);
    }
  }

  /** `clear_location(dvt)` runs exactly once if the DVT channel was opened,
      however `run.run` ends, and never otherwise. */
  lemma ClearExactlyOnceIffDvtEntered(f: Faults)
    ensures multiset(Exec(MainBody, f).effects)[ClearLocation] == if DvtEntered(f) then 1 else 0
  {
    MainMatchesReference(f);
    if TunnelReturned(f) {
      ExpectedCounts(f, ClearLocation);
      TryEffectsCounts(f);
    }
  }

  lemma BeforeAt(a: Effect, b: Effect, s: seq<Effect>, i: nat, j: nat)
    requires i < j < |s| && s[i] == a && s[j] == b
    ensures Before(a, b, s)
  {
  }

  /** Everything `main()` issues on a run that opened the DVT channel. */
  const FullRun: seq<Effect> :=
    [Init, SigIgnore, TunnelStart, SigRestore, GetRoute, OpenRsd, OpenDvt, Run,
     ClearLocation, CloseDvt, CloseRsd, Terminate, PrintBye]

  lemma EffectsWhenDvtEntered(f: Faults)
    requires DvtEntered(f)
    ensures Exec(MainBody, f).effects == FullRun
  {
    MainMatchesReference(f);
    assert TryEffects(f) == [GetRoute, OpenRsd, OpenDvt, Run, ClearLocation, CloseDvt, CloseRsd];
  }

  /** `a` comes before `b` on every run that opened the DVT channel. */
  lemma BeforeInFullRun(f: Faults, a: Effect, b: Effect, i: nat, j: nat)
    requires DvtEntered(f)
    requires i < j < |FullRun| && FullRun[i] == a && FullRun[j] == b
    ensures Before(a, b, Exec(MainBody, f).effects)
  {
    EffectsWhenDvtEntered(f);
    BeforeAt(a, b, FullRun, i, j);
  }

  /** Once the DVT channel is open, the location is cleared while the RSD
      connection and the DVT channel are both still open (no clear is ever
      issued otherwise, by ClearExactlyOnceIffDvtEntered). */
  lemma ClearWhileChannelsOpen(f: Faults)
    requires DvtEntered(f)
    ensures var eff := Exec(MainBody, f).effects;
            && Before(OpenRsd, OpenDvt, eff) && Before(OpenDvt, ClearLocation, eff)
            && Before(ClearLocation, CloseDvt, eff) && Before(ClearLocation, CloseRsd, eff)
  {
    BeforeInFullRun(f, OpenRsd, OpenDvt, 5, 6);
    BeforeInFullRun(f, ClearLocation, CloseRsd, 8, 10);
    BeforeInFullRun(f, OpenDvt, ClearLocation, 6, 8);
    BeforeInFullRun(f, ClearLocation, CloseDvt, 8, 9);
  }

  /** The clear comes before the DVT channel closes, which comes before the
      RSD connection closes, which comes before the tunnel is terminated. */
  lemma ClearBeforeCloseBeforeTerminate(f: Faults)
    requires DvtEntered(f)
    ensures var eff := Exec(MainBody, f).effects;
            && Before(ClearLocation, CloseDvt, eff) && Before(CloseDvt, CloseRsd, eff)
            && Before(CloseRsd, Terminate, eff)
  {
    BeforeInFullRun(f, ClearLocation, CloseDvt, 8, 9);
    BeforeInFullRun(f, CloseDvt, CloseRsd, 9, 10);
    BeforeInFullRun(f, CloseRsd, Terminate, 10, 11);
  }

  /** If `get_route`, the RSD connection or the DVT channel fails, there is
      nothing to clear, but the tunnel is still terminated and "Bye" printed. */
  lemma EarlyFailureStillTerminates(f: Faults)
    requires TunnelReturned(f) && (GetRoute in f || OpenRsd in f || OpenDvt in f)
    ensures var eff := Exec(MainBody, f).effects;
            ClearLocation !in eff && Terminate in eff && PrintBye in eff
  {
    MainMatchesReference(f);
  }

  /** "Bye" is the last effect of every run that entered the outer `try`,
      and it comes right after the termination of the tunnel. */
  lemma ByeIsLast(f: Faults)
    requires TunnelReturned(f)
    ensures var eff := Exec(MainBody, f).effects;
            |eff| >= 2 && eff[|eff| - 1] == PrintBye && eff[|eff| - 2] == Terminate
  {
    MainMatchesReference(f);
  }

  /** Failures before the outer `try` propagate unchanged. */
  lemma StartupFailurePropagates(f: Faults)
    requires !TunnelReturned(f)
    ensures Exec(MainBody, f).completion ==
            if Init in f then Raised(f[Init]) else Raised(f[TunnelStart])
  {
    MainMatchesReference(f);
  }

  /** A `KeyboardInterrupt` never escapes once the outer `try` is entered:
      it is swallowed at line 87 or at line 96. */
  lemma InterruptNeverEscapes(f: Faults)
    requires TunnelReturned(f)
    ensures Exec(MainBody, f).completion != Raised(KeyboardInterrupt)
  {
    MainMatchesReference(f);
  }

  /** When every fault inside the outer `try` is an interrupt, `main()` returns normally. */
  lemma InterruptsReturnNormally(f: Faults)
    requires TunnelReturned(f)
    requires forall e :: e in f && InTry(e) ==> f[e] == KeyboardInterrupt
    ensures Exec(MainBody, f).completion == Normal
  {
    MainMatchesReference(f);
  }

  /** When the faults inside the outer `try` are all other exceptions, one
      still propagates out of `main()` (after the termination and "Bye")
      exactly when some call there raised. */
  lemma OtherExceptionPropagates(f: Faults)
    requires TunnelReturned(f)
    requires forall e :: e in f && InTry(e) ==> f[e] == OtherException
    ensures Exec(MainBody, f).completion ==
            if exists e :: e in f && InTry(e) then Raised(OtherException) else Normal
  {
    MainMatchesReference(f);
    if exists e :: e in f && InTry(e) {
      var e :| e in f && InTry(e);
      assert e in {GetRoute, OpenRsd, OpenDvt, Run, ClearLocation, CloseDvt, CloseRsd};
    }
  }
}
