/**
 A small model of the Python control-flow constructs that `main()` is built
 from: calls that may raise, sequencing, `try/except`, `try/finally` and
 `with`. A statement is evaluated against a fault map that says which call
 sites raise, and with which kind of exception; evaluation yields the effects
 that were issued, in order, and how the statement completed.
 */
module Semantics {

  /** The only distinction among exceptions that the code makes. */
  datatype Exc = KeyboardInterrupt | OtherException

  /** How a statement finished: normally, or by raising an exception. */
  datatype Completion = Normal | Raised(exc: Exc)

  datatype Stmt<E> =
    | Skip
      /** A call that cannot raise. */
    | Do(effect: E)
      /** A call site that raises when the fault map says so. */
    | Call(site: E)
    | Seq(first: Stmt<E>, second: Stmt<E>)
      /** `try: body` / `except catches: handler` */
    | TryExcept(body: Stmt<E>, catches: Exc, handler: Stmt<E>)
      /** `try: body` / `finally: cleanup` */
    | TryFinally(body: Stmt<E>, cleanup: Stmt<E>)
      /** `with enter() as x: body`; `exit` is the call to `__exit__`, which
          never suppresses the exception it is handed. */
    | With(enter: E, exit: E, body: Stmt<E>)

  /** The effects issued, in order, and the way execution completed. */
  datatype Outcome<E> = Outcome(effects: seq<E>, completion: Completion)

  /** The call sites written in a statement, counted with multiplicity. */
  function Sites<E>(s: Stmt<E>): multiset<E>
  {
    match s
    case Skip => multiset{}
    case Do(e) => multiset{e}
    case Call(e) => multiset{e}
    case Seq(a, b) => Sites(a) + Sites(b)
    case TryExcept(b, _, h) => Sites(b) + Sites(h)
    case TryFinally(b, c) => Sites(b) + Sites(c)
    case With(en, ex, b) => multiset{en} + Sites(b) + multiset{ex}
  }

  /** Completion of one call at `site`. */
  function CallResult<E>(site: E, faults: map<E, Exc>): Completion
  {
    if site in faults then Raised(faults[site]) else Normal
  }

  /**
   Python's evaluation of a statement.
   */
  function Exec<E>(s: Stmt<E>, faults: map<E, Exc>): Outcome<E>
  {
    match s
    case Skip => Outcome([], Normal)
    case Do(e) => Outcome([e], Normal)
    case Call(e) => Outcome([e], CallResult(e, faults))
    case Seq(a, b) =>
      var ra := Exec(a, faults);
      if ra.completion.Raised? then ra
      else
        var rb := Exec(b, faults);
        Outcome(ra.effects + rb.effects, rb.completion)
    case TryExcept(b, k, h) =>
      var rb := Exec(b, faults);
      if rb.completion == Raised(k) then
        var rh := Exec(h, faults);
        Outcome(rb.effects + rh.effects, rh.completion)
      else rb
    case TryFinally(b, c) =>
      var rb := Exec(b, faults);
      var rc := Exec(c, faults);
      Outcome(rb.effects + rc.effects,
              if rc.completion.Raised? then rc.completion else rb.completion)
    case With(en, ex, b) =>
      if en in faults then Outcome([en], Raised(faults[en]))
      else
        var rb := Exec(b, faults);
        Outcome([en] + rb.effects + [ex],
                if ex in faults then Raised(faults[ex]) else rb.completion)
  }

  /** Every call site of `s` is issued at most as often as it is written. */
  ghost predicate WithinSites<E>(s: Stmt<E>, faults: map<E, Exc>)
  {
    multiset(Exec(s, faults).effects) <= Sites(s)
  }

  /** There are no loops: every call site is issued at most as often as it is written. */
  lemma {:induction false} IssuedAtMostAsWritten<E>(s: Stmt<E>, faults: map<E, Exc>)
    ensures WithinSites(s, faults)
  {
    match s
    case Skip =>
    case Do(_) =>
    case Call(_) =>
    case Seq(a, b) =>
      IssuedAtMostAsWritten(a, faults);
      IssuedAtMostAsWritten(b, faults);
      SeqWithinSites(a, b, faults);
    case TryExcept(b, k, h) =>
      IssuedAtMostAsWritten(b, faults);
      IssuedAtMostAsWritten(h, faults);
      TryExceptWithinSites(b, k, h, faults);
    case TryFinally(b, c) =>
      IssuedAtMostAsWritten(b, faults);
      IssuedAtMostAsWritten(c, faults);
      TryFinallyWithinSites(b, c, faults);
    case With(en, ex, b) =>
      IssuedAtMostAsWritten(b, faults);
      WithWithinSites(en, ex, b, faults);
  }

  lemma SeqWithinSites<E>(a: Stmt<E>, b: Stmt<E>, faults: map<E, Exc>)
    requires WithinSites(a, faults) && WithinSites(b, faults)
    ensures WithinSites(Seq(a, b), faults)
  {
    Appended(Exec(a, faults).effects, Exec(b, faults).effects, Sites(a), Sites(b));
  }

  lemma TryExceptWithinSites<E>(b: Stmt<E>, k: Exc, h: Stmt<E>, faults: map<E, Exc>)
    requires WithinSites(b, faults) && WithinSites(h, faults)
    ensures WithinSites(TryExcept(b, k, h), faults)
  {
    Appended(Exec(b, faults).effects, Exec(h, faults).effects, Sites(b), Sites(h));
  }

  lemma TryFinallyWithinSites<E>(b: Stmt<E>, c: Stmt<E>, faults: map<E, Exc>)
    requires WithinSites(b, faults) && WithinSites(c, faults)
    ensures WithinSites(TryFinally(b, c), faults)
  {
    Appended(Exec(b, faults).effects, Exec(c, faults).effects, Sites(b), Sites(c));
  }

  lemma WithWithinSites<E>(en: E, ex: E, b: Stmt<E>, faults: map<E, Exc>)
    requires WithinSites(b, faults)
    ensures WithinSites(With(en, ex, b), faults)
  {
    var rb := Exec(b, faults).effects;
    Appended([en], rb, multiset{en}, Sites(b));
    Appended([en] + rb, [ex], multiset{en} + Sites(b), multiset{ex});
  }

  /** Helper: the effects of two parts, appended, stay within their written sites. */
  lemma Appended<E>(s: seq<E>, t: seq<E>, ms: multiset<E>, mt: multiset<E>)
    requires multiset(s) <= ms && multiset(t) <= mt
    ensures multiset(s) <= ms + mt && multiset(s + t) <= ms + mt
  {
    assert multiset(s + t) == multiset(s) + multiset(t);
  }

  /** Once `__enter__` has succeeded, the body's calls come next and
      `__exit__` is the last thing a `with` block does, however its body ends;
      an exception `__exit__` raises replaces the body's completion. If
      entering fails, nothing else runs. */
  lemma WithExitOnEveryPath<E>(en: E, ex: E, body: Stmt<E>, faults: map<E, Exc>)
    ensures var r := Exec(With(en, ex, body), faults);
            && |r.effects| >= 1 && r.effects[0] == en
            && (en in faults ==> r == Outcome([en], Raised(faults[en])))
            && (en !in faults ==> |r.effects| >= 2 && r.effects[|r.effects| - 1] == ex)
            && (en !in faults ==> r.effects == [en] + Exec(body, faults).effects + [ex])
            && (en !in faults && ex !in faults ==> r.completion == Exec(body, faults).completion)
            && (en !in faults && ex in faults ==> r.completion == Raised(faults[ex]))
  {
  }

  /** The `finally` body runs, completely, after the `try` body on every path,
      and an exception it raises replaces whatever was pending. */
  lemma FinallyOnEveryPath<E>(body: Stmt<E>, cleanup: Stmt<E>, faults: map<E, Exc>)
    ensures var r := Exec(TryFinally(body, cleanup), faults);
            var rb := Exec(body, faults);
            var rc := Exec(cleanup, faults);
            && r.effects[..|rb.effects|] == rb.effects
            && r.effects[|rb.effects|..] == rc.effects
            && (rc.completion == Normal ==> r.completion == rb.completion)
            && (rc.completion.Raised? ==> r.completion == rc.completion)
  {
  }

  /** `except k: pass` swallows exactly the exceptions of kind `k` and lets
      every other completion through unchanged. */
  lemma ExceptSwallowsOnlyItsKind<E>(body: Stmt<E>, k: Exc, faults: map<E, Exc>)
    ensures var r := Exec(TryExcept(body, k, Skip), faults);
            var rb := Exec(body, faults);
            && r.effects == rb.effects
            && r.completion != Raised(k)
            && (rb.completion == Raised(k) ==> r.completion == Normal)
            && (rb.completion != Raised(k) ==> r.completion == rb.completion)
  {
  }

  /** An exception that escapes has the kind of some issued call site's fault. */
  ghost predicate RaisedByIssuedSite<E>(r: Outcome<E>, faults: map<E, Exc>)
  {
    r.completion.Raised? ==>
      exists e :: e in r.effects && e in faults && faults[e] == r.completion.exc
  }

  /** No exception appears out of nowhere: whatever escapes a statement was
      raised by one of the call sites it issued. */
  lemma {:induction false} EscapingExceptionWasRaised<E>(s: Stmt<E>, faults: map<E, Exc>)
    ensures RaisedByIssuedSite(Exec(s, faults), faults)
  {
    match s
    case Skip =>
    case Do(e) =>
    case Call(e) =>
      assert Exec(s, faults).effects[0] == e;
    case Seq(a, b) =>
      EscapingExceptionWasRaised(a, faults);
      EscapingExceptionWasRaised(b, faults);
      SeqCase(a, b, faults);
    case TryExcept(b, k, h) =>
      EscapingExceptionWasRaised(b, faults);
      EscapingExceptionWasRaised(h, faults);
      TryExceptCase(b, k, h, faults);
    case TryFinally(b, c) =>
      EscapingExceptionWasRaised(b, faults);
      EscapingExceptionWasRaised(c, faults);
      TryFinallyCase(b, c, faults);
    case With(en, ex, b) =>
      EscapingExceptionWasRaised(b, faults);
      WithCase(en, ex, b, faults);
  }

  lemma SeqCase<E>(a: Stmt<E>, b: Stmt<E>, faults: map<E, Exc>)
    requires RaisedByIssuedSite(Exec(a, faults), faults)
    requires RaisedByIssuedSite(Exec(b, faults), faults)
    ensures RaisedByIssuedSite(Exec(Seq(a, b), faults), faults)
  {
    var ra, rb := Exec(a, faults), Exec(b, faults);
    if !ra.completion.Raised? {
      Concat(ra, rb, faults);
    }
  }

  lemma TryExceptCase<E>(b: Stmt<E>, k: Exc, h: Stmt<E>, faults: map<E, Exc>)
    requires RaisedByIssuedSite(Exec(b, faults), faults)
    requires RaisedByIssuedSite(Exec(h, faults), faults)
    ensures RaisedByIssuedSite(Exec(TryExcept(b, k, h), faults), faults)
  {
    var rb, rh := Exec(b, faults), Exec(h, faults);
    if rb.completion == Raised(k) {
      Concat(rb, rh, faults);
    }
  }

  lemma TryFinallyCase<E>(b: Stmt<E>, c: Stmt<E>, faults: map<E, Exc>)
    requires RaisedByIssuedSite(Exec(b, faults), faults)
    requires RaisedByIssuedSite(Exec(c, faults), faults)
    ensures RaisedByIssuedSite(Exec(TryFinally(b, c), faults), faults)
  {
    var rb, rc := Exec(b, faults), Exec(c, faults);
    var all := rb.effects + rc.effects;
    if rc.completion.Raised? {
      var e :| e in rc.effects && e in faults && faults[e] == rc.completion.exc;
      assert e in all;
    } else if rb.completion.Raised? {
      var e :| e in rb.effects && e in faults && faults[e] == rb.completion.exc;
      assert e in all;
    }
  }

  lemma WithCase<E>(en: E, ex: E, b: Stmt<E>, faults: map<E, Exc>)
    requires RaisedByIssuedSite(Exec(b, faults), faults)
    ensures RaisedByIssuedSite(Exec(With(en, ex, b), faults), faults)
  {
    var r, rb := Exec(With(en, ex, b), faults), Exec(b, faults);
    if en in faults {
      assert r.effects[0] == en;
    } else if ex in faults {
      assert r.effects[|r.effects| - 1] == ex;
    } else if rb.completion.Raised? {
      var e :| e in rb.effects && e in faults && faults[e] == rb.completion.exc;
      assert r.effects == [en] + rb.effects + [ex];
      assert e in r.effects;
    }
  }

  /** Helper: effects of `second` appended to those of a normally completed `first`. */
  lemma Concat<E>(first: Outcome<E>, second: Outcome<E>, faults: map<E, Exc>)
    requires RaisedByIssuedSite(second, faults)
    ensures RaisedByIssuedSite(Outcome(first.effects + second.effects, second.completion), faults)
  {
    if second.completion.Raised? {
      var e :| e in second.effects && e in faults && faults[e] == second.completion.exc;
      assert e in first.effects + second.effects;
    }
  }
}
