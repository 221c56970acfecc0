/** What `withBrowser`, `withLogin` and `withPage` guarantee, stated over the
    traces and results their methods are proved to produce. */
module ScopeProperties {
  import opened Results
  import opened Engine
  import opened Login
  import opened LoginProperties
  import opened Scope

  /** No work launches or closes a browser. */
  lemma WorkStaysInBrowser<T>(script: Script, browser: nat, work: Work<T>, next: nat)
    ensures forall e :: e in WorkTrace(script, browser, work, next) ==> !e.Launch? && !e.CloseBrowser?
  {
    if work.AfterLogin? {
      LoginStaysInBrowser(script, browser, work.info, work.options, next);
    }
  }

  /** A trace framed by a launch and a close of the browser, with neither
      inside the frame, launches first, closes last and does each once; a
      callback run just before the close is the second-to-last call. */
  lemma Framed(trace: seq<Event>, inner: seq<Event>, middle: seq<Event>, next: nat, ctx: nat)
    requires forall e :: e in inner ==> !e.Launch? && !e.CloseBrowser?
    requires middle == [] || middle == [RunCallback]
    requires trace == [Launch(next)] + inner + middle + [CloseBrowser(next)]
    ensures && |trace| >= 2 && trace[0] == Launch(next) && trace[|trace| - 1] == CloseBrowser(next)
      && multiset(trace)[Launch(next)] == 1 && multiset(trace)[CloseBrowser(next)] == 1
      && (RunCallback !in inner ==> multiset(trace)[RunCallback] == |middle|)
      && (RunCallback !in inner ==> (RunCallback in trace <==> middle != []))
      && multiset(trace)[CloseContext(ctx)] == multiset(inner)[CloseContext(ctx)]
      && (middle != [] ==> trace[|trace| - 2] == RunCallback)
  {
    assert Launch(next) !in inner && CloseBrowser(next) !in inner;
  }

  /** Whatever the work, `withBrowser` launches its browser first, closes it
      last, and does each exactly once. */
  lemma BrowserLaunchedAndClosedOnce<T>(script: Script, work: Work<T>, next: nat)
    ensures var trace := BrowserTrace(script, work, next);
      && trace[0] == Launch(next) && trace[|trace| - 1] == CloseBrowser(next)
      && multiset(trace)[Launch(next)] == 1 && multiset(trace)[CloseBrowser(next)] == 1
  {
    WorkStaysInBrowser(script, next, work, next + 1);
    var inner := WorkTrace(script, next, work, next + 1);
    assert inner + [] == inner;
    Framed(BrowserTrace(script, work, next), inner, [], next, next);
  }

  /** `withBrowser` returns exactly one of `data` and `error`: the value when the
      work returned one, the message when it threw. */
  lemma BrowserResultSettlesWork<T>(script: Script, work: Work<T>, next: nat)
    ensures var r := BrowserResult(script, work, next);
      var o := WorkOutcome(script, work, next + 1);
      && r.IsExclusive()
      && (r.data.Some? <==> o.Returns?)
      && (o.Returns? ==> r.data.value == o.value)
      && (o.Throws? ==> r.error == Some(o.message))
  {
  }

  /** Without stored credentials `withLogin` returns the fixed error and never
      launches a browser. */
  lemma WithLoginNeedsStoredUser<T>(script: Script, fn: Outcome<T>, options: LoginOptions, next: nat)
    ensures WithLoginResult(script, None, fn, options, next) == Failure(NoUserError)
    ensures WithLoginTrace(script, None, fn, options, next) == []
  {
  }

  /** `withLogin`'s trace is the login trace framed by the browser's launch and
      close, with the caller's function run in between when the login succeeded. */
  lemma WithLoginTraceShape<T>(script: Script, info: LoginInfo, fn: Outcome<T>, options: LoginOptions, next: nat)
    ensures WithLoginTrace(script, Some(info), fn, options, next)
            == [Launch(next)] + LoginTrace(script, next, info, options, next + 1)
               + (if LoginResult(script, info, options, next + 1).error.Some? then [] else [RunCallback])
               + [CloseBrowser(next)]
  {
  }

  /** When `login` fails, `withLogin` returns its error, never runs the caller's
      function, and still closes the browser exactly once, last; the login's
      context was closed exactly once. */
  lemma WithLoginReportsLoginError<T>(script: Script, info: LoginInfo, fn: Outcome<T>, options: LoginOptions, next: nat)
    requires LoginResult(script, info, options, next + 1).error.Some?
    ensures WithLoginResult(script, Some(info), fn, options, next)
            == Failure(LoginResult(script, info, options, next + 1).error.value)
    ensures var trace := WithLoginTrace(script, Some(info), fn, options, next);
      && RunCallback !in trace
      && trace[|trace| - 1] == CloseBrowser(next)
      && multiset(trace)[CloseBrowser(next)] == 1
      && multiset(trace)[CloseContext(next + 1)] == 1
  {
    assert WithLoginResult(script, Some(info), fn, options, next)
           == Failure(LoginResult(script, info, options, next + 1).error.value) by {
      assert WithLoginResult(script, Some(info), fn, options, next)
             == Settle(WorkOutcome(script, AfterLogin(info, options, fn), next + 1));
    }
    var inner := LoginTrace(script, next, info, options, next + 1);
    var trace := WithLoginTrace(script, Some(info), fn, options, next);
    assert forall e :: e in inner ==> !e.Launch? && !e.CloseBrowser? && !e.RunCallback? by {
      LoginStaysInBrowser(script, next, info, options, next + 1);
    }
    assert multiset(inner)[CloseContext(next + 1)] == 1 by {
      LoginReleasesContextOnFailure(script, next, info, options, next + 1);
    }
    assert trace == [Launch(next)] + inner + [] + [CloseBrowser(next)] by {
      WithLoginTraceShape(script, info, fn, options, next);
    }
    Framed(trace, inner, [], next, next + 1);
  }

  /** When `login` succeeds, `withLogin` settles with the caller's function:
      its value as `{data}`, or what it threw as `{error}`. */
  lemma WithLoginSettlesWithCaller<T>(script: Script, info: LoginInfo, fn: Outcome<T>, options: LoginOptions, next: nat)
    requires LoginResult(script, info, options, next + 1).error.None?
    ensures WithLoginResult(script, Some(info), fn, options, next) == Settle(fn)
  {
    assert WithLoginResult(script, Some(info), fn, options, next)
           == Settle(WorkOutcome(script, AfterLogin(info, options, fn), next + 1));
  }

  /** When `login` succeeds, the caller's function runs once, right before the
      browser is closed, and the login context is left to the browser's close
      rather than closed itself. */
  lemma WithLoginRunsCallerAfterLogin<T>(script: Script, info: LoginInfo, fn: Outcome<T>, options: LoginOptions, next: nat)
    requires LoginResult(script, info, options, next + 1).error.None?
    ensures var trace := WithLoginTrace(script, Some(info), fn, options, next);
      && |trace| >= 2
      && trace[|trace| - 2] == RunCallback
      && trace[|trace| - 1] == CloseBrowser(next)
      && multiset(trace)[RunCallback] == 1
      && multiset(trace)[CloseContext(next + 1)] == 0
  {
    var inner := LoginTrace(script, next, info, options, next + 1);
    var trace := WithLoginTrace(script, Some(info), fn, options, next);
    assert forall e :: e in inner ==> !e.Launch? && !e.CloseBrowser? && !e.RunCallback? by {
      LoginStaysInBrowser(script, next, info, options, next + 1);
    }
    assert multiset(inner)[CloseContext(next + 1)] == 0 by {
      LoginReleasesContextOnFailure(script, next, info, options, next + 1);
    }
    assert trace == [Launch(next)] + inner + [RunCallback] + [CloseBrowser(next)] by {
      WithLoginTraceShape(script, info, fn, options, next);
    }
    Framed(trace, inner, [RunCallback], next, next + 1);
  }

  /** `withPage` never returns an error: the caller's value (possibly `null`)
      when its function returns, `null` when it throws.  The page's context is
      not closed. */
  lemma WithPageNeverFails<T>(script: Script, fn: Outcome<Option<T>>, next: nat)
    ensures var r := BrowserResult(script, PageWork(fn), next);
      && r.error == None
      && r.data == Some(if fn.Returns? then fn.value else None)
    ensures BrowserTrace(script, PageWork(fn), next)
            == [Launch(next), NewContext(next, next + 1), NewPage(next + 1, next + 2), RunCallback, CloseBrowser(next)]
  {
  }

  /** A caller's function that returns `null` and one that throws give
      `withPage` the same result, `{ data: null }`, and the same calls. */
  lemma WithPageNullLikeThrow<T>(script: Script, message: string, next: nat)
    ensures BrowserResult(script, PageWork<T>(Returns(None)), next)
            == BrowserResult(script, PageWork<T>(Throws(message)), next)
            == Success(None)
    ensures BrowserTrace(script, PageWork<T>(Returns(None)), next)
            == BrowserTrace(script, PageWork<T>(Throws(message)), next)
  {
  }
}
