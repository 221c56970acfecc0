/** `withBrowser`, `withLogin` and `withPage`: run the caller's work inside a
    browser that is launched for it and closed after it, and hand back what the
    work produced as `{data}` or what it threw as `{error}`. */
module Scope {
  import opened Results
  import opened Engine
  import opened Login

  /** The error `withLogin` returns when no credentials are stored. */
  const NoUserError := "please provide login info, try `dhu login`"

  /** The callbacks handed to `withBrowser`.  The caller's own function is not
      visible here: it is represented by the outcome it settles with.
      - `Caller(fn)`: the caller's function, given straight to `withBrowser`;
      - `AfterLogin(info, options, fn)`: the closure of `withLogin`, which logs
        in and then runs the caller's function on the login context;
      - `OnPage(fn, fallback)`: the closure of `withPage`, which opens a context
        and a page, runs the caller's function on the page and returns
        `fallback` instead of throwing when that function throws. */
  datatype Work<T> =
    | Caller(fn: Outcome<T>)
    | AfterLogin(info: LoginInfo, options: LoginOptions, fn: Outcome<T>)
    | OnPage(fn: Outcome<T>, fallback: T)

  /** How many numbers the work takes from the engine for the things it opens. */
  function WorkIds<T>(work: Work<T>): nat {
    match work
    case Caller(_) => 0
    case AfterLogin(_, _, _) => 2
    case OnPage(_, _) => 2
  }

  /** The calls the work makes on the engine, given the browser it runs in and
      the next number the engine hands out. */
  function WorkTrace<T>(script: Script, browser: nat, work: Work<T>, next: nat): seq<Event> {
    match work
    case Caller(_) => [RunCallback]
    case AfterLogin(info, options, _) =>
      LoginTrace(script, browser, info, options, next)
      + if LoginResult(script, info, options, next).error.Some? then [] else [RunCallback]
    case OnPage(_, _) => [NewContext(browser, next), NewPage(next, next + 1), RunCallback]
  }

  /** How the work settles: a login error is rethrown, the fallback replaces
      a throw on the page, and otherwise the caller's function decides. */
  function WorkOutcome<T>(script: Script, work: Work<T>, next: nat): (r: Outcome<T>)
    ensures work.OnPage? ==> r.Returns?
    ensures r.Returns? ==> r == work.fn || (work.OnPage? && r == Returns(work.fallback))
  {
    match work
    case Caller(fn) => fn
    case AfterLogin(info, options, fn) =>
      var login := LoginResult(script, info, options, next);
      if login.error.Some? then Throws(login.error.value) else fn
    case OnPage(fn, fallback) =>
      if fn.Returns? then fn else Returns(fallback)
  }

  /** The `try`/`catch` of `withBrowser`: a returned value becomes `{data}`,
      a thrown one `{error}`. */
  function Settle<T>(o: Outcome<T>): (r: Result<T>)
    ensures r.IsExclusive()
    ensures r.data.Some? <==> o.Returns?
    ensures o.Returns? ==> r.data.value == o.value
    ensures o.Throws? ==> r.error == Some(o.message)
  {
    match o
    case Returns(v) => Success(v)
    case Throws(m) => Failure(m)
  }

  /** Everything `withBrowser` does on the engine, given the number the browser gets. */
  function BrowserTrace<T>(script: Script, work: Work<T>, next: nat): seq<Event> {
    [Launch(next)] + WorkTrace(script, next, work, next + 1) + [CloseBrowser(next)]
  }

  /** What `withBrowser` returns. */
  function BrowserResult<T>(script: Script, work: Work<T>, next: nat): (r: Result<T>)
    ensures r.IsExclusive()
    ensures work.OnPage? ==> r.error.None?
  {
    Settle(WorkOutcome(script, work, next + 1))
  }

  /** Everything `withLogin` does, given the stored credentials. */
  function WithLoginTrace<T>(script: Script, stored: Option<LoginInfo>, fn: Outcome<T>,
                             options: LoginOptions, next: nat): seq<Event> {
    if stored.None? then [] else BrowserTrace(script, AfterLogin(stored.value, options, fn), next)
  }

  /** What `withLogin` returns, given the stored credentials. */
  function WithLoginResult<T>(script: Script, stored: Option<LoginInfo>, fn: Outcome<T>,
                              options: LoginOptions, next: nat): (r: Result<T>)
    ensures r.IsExclusive()
    ensures stored.None? ==> r.error == Some(NoUserError)
    ensures r.data.Some? ==> stored.Some? && fn.Returns? && r.data.value == fn.value
  {
    if stored.None? then Failure(NoUserError) else BrowserResult(script, AfterLogin(stored.value, options, fn), next)
  }

  /** The work `withPage` hands to `withBrowser`.  The caller's function
      returns `T | null`, here `Option<T>`; `null` is also what the closure
      returns when that function throws, so a `null` return and a throw give
      the same result. */
  function PageWork<T>(fn: Outcome<Option<T>>): Work<Option<T>> {
    OnPage(fn, None)
  }

  /** The engine's trace after the work, call by call, is the trace the work's
      specification gives. */
  lemma LoginWorkAssembled<T>(script: Script, browser: nat, info: LoginInfo, options: LoginOptions,
                              fn: Outcome<T>, next: nat, before: seq<Event>, middle: seq<Event>, after: seq<Event>)
    requires middle == before + LoginTrace(script, browser, info, options, next)
    requires after == middle + if LoginResult(script, info, options, next).error.Some? then [] else [RunCallback]
    ensures after == before + WorkTrace(script, browser, AfterLogin(info, options, fn), next)
  {
  }

  /** Regrouping the appends that build a trace. */
  lemma Regroup(a: seq<Event>, b: seq<Event>, c: seq<Event>, d: seq<Event>)
    ensures a + b + c + d == a + (b + c + d)
  {
  }

  /** The engine's trace after `withBrowser`, call by call, is the trace its
      specification gives. */
  lemma BrowserTraceAssembled<T>(script: Script, work: Work<T>, next: nat,
                                 before: seq<Event>, launched: seq<Event>, after: seq<Event>)
    requires launched == before + [Launch(next)]
    requires after == launched + WorkTrace(script, next, work, next + 1) + [CloseBrowser(next)]
    ensures after == before + BrowserTrace(script, work, next)
  {
    Regroup(before, [Launch(next)], WorkTrace(script, next, work, next + 1), [CloseBrowser(next)]);
  }

  /** Runs one of the callbacks in `browser`. */
  method RunWork<T>(engine: FakeEngine, browser: nat, work: Work<T>) returns (outcome: Outcome<T>)
    modifies engine`trace, engine`nextId
    ensures engine.nextId == old(engine.nextId) + WorkIds(work)
    ensures engine.trace == old(engine.trace) + WorkTrace(engine.script, browser, work, old(engine.nextId))
    ensures outcome == WorkOutcome(engine.script, work, old(engine.nextId))
  {
    match work
    case Caller(fn) =>
      engine.RunCallback();
      outcome := fn;
    case AfterLogin(info, options, fn) =>
      ghost var middle;
      var login := Login.Login(engine, browser, info, options);
      middle := engine.trace;
      if login.error.Some? {
        outcome := Throws(login.error.value);
        assert engine.trace == engine.trace + [];
      } else if login.data.None? {
        assert false;
      } else {
        engine.RunCallback();
        outcome := fn;
      }
      LoginWorkAssembled(engine.script, browser, info, options, fn, old(engine.nextId),
                         old(engine.trace), middle, engine.trace);
    case OnPage(fn, fallback) =>
      var ctx := engine.NewContext(browser);
      var page := engine.NewPage(ctx);
      engine.RunCallback();
      if fn.Returns? {
        outcome := fn;
      } else {
        outcome := Returns(fallback);
      }
  }

  /** `withBrowser(fn, option)` */
  method WithBrowser<T>(engine: FakeEngine, work: Work<T>) returns (result: Result<T>)
    modifies engine`trace, engine`nextId
    ensures engine.nextId == old(engine.nextId) + 1 + WorkIds(work)
    ensures engine.trace == old(engine.trace) + BrowserTrace(engine.script, work, old(engine.nextId))
    ensures result == BrowserResult(engine.script, work, old(engine.nextId))
  {
    var browser := engine.Launch();
    result := Result(None, None);
    ghost var launched := engine.trace;
    var outcome := RunWork(engine, browser, work);
    match outcome {
      case Returns(data) =>
        result := Success(data);
      case Throws(error) =>
        result := Failure(error);
    }
    engine.CloseBrowser(browser);
    BrowserTraceAssembled(engine.script, work, browser, old(engine.trace), launched, engine.trace);
  }

  /** `withLogin(fn, option, loginOptions)`, given the user the credential store
      holds (`(await getUserData())?.user`). */
  method WithLogin<T>(engine: FakeEngine, stored: Option<LoginInfo>, fn: Outcome<T>, options: LoginOptions)
    returns (result: Result<T>)
    modifies engine`trace, engine`nextId
    ensures engine.nextId == old(engine.nextId) + if stored.None? then 0 else 3
    ensures engine.trace == old(engine.trace) + WithLoginTrace(engine.script, stored, fn, options, old(engine.nextId))
    ensures result == WithLoginResult(engine.script, stored, fn, options, old(engine.nextId))
  {
    if stored.None? {
      assert engine.trace == engine.trace + [];
      return Failure(NoUserError);
    }
    result := WithBrowser(engine, AfterLogin(stored.value, options, fn));
  }

  /** `withPage(fn, option)` */
  method WithPage<T>(engine: FakeEngine, fn: Outcome<Option<T>>) returns (result: Result<Option<T>>)
    modifies engine`trace, engine`nextId
    ensures engine.nextId == old(engine.nextId) + 3
    ensures engine.trace == old(engine.trace) + BrowserTrace(engine.script, PageWork(fn), old(engine.nextId))
    ensures result == BrowserResult(engine.script, PageWork(fn), old(engine.nextId))
  {
    result := WithBrowser(engine, PageWork(fn));
  }
}
