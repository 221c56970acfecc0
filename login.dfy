/** `login`: one login attempt on a fresh browsing context.  It opens a context
    and a page, then inside a try block goes to the login page, gives up if a
    maintenance notice shows, types the id and the password, submits, and fails
    if the portal shows a login error (first removing the stored credentials when
    asked to).  Any failure in the try block closes the context and is returned as
    `{error}`; success returns the still-open context and page as `{data}`. */
module Login {
  import opened Results
  import opened Selectors
  import opened JsText
  import opened Engine

  datatype LoginOptions = LoginOptions(target: Option<LoginTarget>, removeUserInfoOnError: Option<bool>)

  /** `{}`: the options `login` falls back to when it is given none. */
  const NoOptions := LoginOptions(None, None)

  /** The session handed back on success: the browsing context and its page. */
  datatype LoginContext = LoginContext(ctx: nat, page: nat)

  /** `if (loginOptions.removeUserInfoOnError)`: an omitted flag counts as false. */
  predicate RemovesOnError(o: LoginOptions)
    ensures RemovesOnError(o) <==> o.removeUserInfoOnError == Some(true)
  {
    o.removeUserInfoOnError.Some? && o.removeUserInfoOnError.value
  }

  /** The selector set a login with these options uses: the mobile constants
      exactly when `"mobile"` is requested, the desktop ones otherwise, also
      when no target is given. */
  function SelectorsFor(o: LoginOptions): SelectorSet {
    LoginSelectors(DefaultTarget(o.target))
  }

  /** The mobile constants are used exactly when `"mobile"` is requested; `"pc"`
      and an omitted target both use the desktop ones. */
  lemma SelectorsForTarget(o: LoginOptions)
    ensures SelectorsFor(o) == LoginSelectors(Mobile) <==> o.target == Some(Mobile)
    ensures o.target != Some(Mobile) ==> SelectorsFor(o) == LoginSelectors(Pc)
  {
  }

  /** Every step of the try block, in the order of the source, as the calls they make. */
  function FullSequence(sel: SelectorSet, info: LoginInfo): seq<Event> {
    [Goto(sel.url), Evaluate(MaintenanceNotice),
     Type(sel.id, info.id), Type(sel.password, info.password), Click(sel.submit),
     Evaluate(LoginErrorDetail), RemoveUserInfo]
  }

  /** The calls the try block makes when none of them throws: after the
      maintenance probe it stops if the probe shows text; after the login-error
      probe it removes the credentials if the probe shows text and the flag is set. */
  function LoginCalls(script: Script, sel: SelectorSet, info: LoginInfo, removeOnError: bool): seq<Event> {
    [Goto(sel.url), Evaluate(MaintenanceNotice)]
    + if Shows(script.notice) then []
      else [Type(sel.id, info.id), Type(sel.password, info.password), Click(sel.submit),
            Evaluate(LoginErrorDetail)]
           + if Shows(script.errorDetail) && removeOnError then [RemoveUserInfo] else []
  }

  /** How the try block ends: the calls it made, and the error it ended with. */
  datatype Run = Run(made: seq<Event>, error: Option<string>)

  /** The try block's run: it makes its calls in order up to the first that
      throws, and ends with that call's error; if none throws, it ends with the
      maintenance notice, else the login error text, else no error. */
  function AttemptRun(script: Script, sel: SelectorSet, info: LoginInfo, removeOnError: bool): (r: Run)
    ensures r.made != [] && r.made <= LoginCalls(script, sel, info, removeOnError)
    ensures r.error.None? ==> r.made == LoginCalls(script, sel, info, removeOnError)
  {
    var calls := LoginCalls(script, sel, info, removeOnError);
    var k := FirstFault(calls, script.faults);
    if k < |calls| then Run(calls[..k + 1], Some(script.faults[calls[k]]))
    else if Shows(script.notice) then Run(calls, Some(Trim(script.notice.text)))
    else if Shows(script.errorDetail) then Run(calls, Some(Trim(script.errorDetail.text)))
    else Run(calls, None)
  }

  /** Everything one call of `login` does on the engine, given the number the
      engine will give the new context (`next`; the page gets `next + 1`). */
  function LoginTrace(script: Script, browser: nat, info: LoginInfo, options: LoginOptions, next: nat): (r: seq<Event>)
    ensures |r| >= 3 && r[0] == NewContext(browser, next) && r[1] == NewPage(next, next + 1)
  {
    var run := AttemptRun(script, SelectorsFor(options), info, RemovesOnError(options));
    [NewContext(browser, next), NewPage(next, next + 1)] + run.made
    + if run.error.Some? then [CloseContext(next)] else []
  }

  /** What `login` returns. */
  function LoginResult(script: Script, info: LoginInfo, options: LoginOptions, next: nat): (r: Result<LoginContext>)
    ensures r.IsExclusive()
    ensures r.data.Some? ==> r.data.value == LoginContext(next, next + 1)
  {
    var run := AttemptRun(script, SelectorsFor(options), info, RemovesOnError(options));
    if run.error.Some? then Failure(run.error.value) else Success(LoginContext(next, next + 1))
  }

  /** How long the fault-free call sequence is: two calls when the maintenance
      notice stops the login, seven when the credentials are removed, six otherwise. */
  function CallCount(script: Script, removeOnError: bool): nat {
    if Shows(script.notice) then 2
    else if Shows(script.errorDetail) && removeOnError then 7
    else 6
  }

  /** The calls of one attempt are a prefix of the full sequence, of the length above. */
  lemma LoginCallsArePrefix(script: Script, sel: SelectorSet, info: LoginInfo, removeOnError: bool)
    ensures LoginCalls(script, sel, info, removeOnError) == FullSequence(sel, info)[..CallCount(script, removeOnError)]
  {
  }

  /** The try block stops at the `k`-th call because it throws. */
  lemma AttemptThrowsAt(script: Script, sel: SelectorSet, info: LoginInfo, removeOnError: bool, k: nat,
                        start: seq<Event>, trace: seq<Event>, error: Option<string>)
    requires k < CallCount(script, removeOnError)
    requires Clean(FullSequence(sel, info), script.faults, k)
    requires trace == start + FullSequence(sel, info)[..k + 1]
    requires error == script.Thrown(FullSequence(sel, info)[k]) && error.Some?
    ensures trace == start + AttemptRun(script, sel, info, removeOnError).made
    ensures error == AttemptRun(script, sel, info, removeOnError).error
  {
    var calls := LoginCalls(script, sel, info, removeOnError);
    LoginCallsArePrefix(script, sel, info, removeOnError);
    FirstFaultAt(calls, script.faults, k);
  }

  /** The try block makes all its calls and none throws; it ends with the
      maintenance notice, else the login error text, else no error. */
  lemma AttemptRunsThrough(script: Script, sel: SelectorSet, info: LoginInfo, removeOnError: bool,
                           start: seq<Event>, trace: seq<Event>, error: Option<string>)
    requires Clean(FullSequence(sel, info), script.faults, CallCount(script, removeOnError))
    requires trace == start + FullSequence(sel, info)[..CallCount(script, removeOnError)]
    requires error == if Shows(script.notice) then Some(Trim(script.notice.text))
                      else if Shows(script.errorDetail) then Some(Trim(script.errorDetail.text))
                      else None
    ensures trace == start + AttemptRun(script, sel, info, removeOnError).made
    ensures error == AttemptRun(script, sel, info, removeOnError).error
  {
    var calls := LoginCalls(script, sel, info, removeOnError);
    LoginCallsArePrefix(script, sel, info, removeOnError);
    FirstFaultAt(calls, script.faults, |calls|);
  }

  /** The body of the try block; a throw is a return with the thrown message. */
  method Attempt(engine: FakeEngine, sel: SelectorSet, info: LoginInfo, removeOnError: bool)
    returns (error: Option<string>)
    modifies engine`trace
    ensures engine.trace == old(engine.trace) + AttemptRun(engine.script, sel, info, removeOnError).made
    ensures error == AttemptRun(engine.script, sel, info, removeOnError).error
  {
    ghost var script := engine.script;
    ghost var full := FullSequence(sel, info);
    ghost var start := engine.trace;
    error := engine.Call(Goto(sel.url));
    Advance(start, full, script.faults, 0, engine.trace);
    if error.Some? {
      AttemptThrowsAt(script, sel, info, removeOnError, 0, start, engine.trace, error);
      return;
    }
    var maintenanceMessage;
    maintenanceMessage, error := engine.Evaluate(MaintenanceNotice);
    ProbeTriState(script.notice);
    Advance(start, full, script.faults, 1, engine.trace);
    if error.Some? {
      AttemptThrowsAt(script, sel, info, removeOnError, 1, start, engine.trace, error);
      return;
    }
    if Truthy(maintenanceMessage) {
      error := maintenanceMessage;
      AttemptRunsThrough(script, sel, info, removeOnError, start, engine.trace, error);
      return;
    }
    error := engine.Call(Type(sel.id, info.id));
    Advance(start, full, script.faults, 2, engine.trace);
    if error.Some? {
      AttemptThrowsAt(script, sel, info, removeOnError, 2, start, engine.trace, error);
      return;
    }
    error := engine.Call(Type(sel.password, info.password));
    Advance(start, full, script.faults, 3, engine.trace);
    if error.Some? {
      AttemptThrowsAt(script, sel, info, removeOnError, 3, start, engine.trace, error);
      return;
    }
    error := engine.Call(Click(sel.submit));
    Advance(start, full, script.faults, 4, engine.trace);
    if error.Some? {
      AttemptThrowsAt(script, sel, info, removeOnError, 4, start, engine.trace, error);
      return;
    }
    var loginErrorMessage;
    loginErrorMessage, error := engine.Evaluate(LoginErrorDetail);
    ProbeTriState(script.errorDetail);
    Advance(start, full, script.faults, 5, engine.trace);
    if error.Some? {
      AttemptThrowsAt(script, sel, info, removeOnError, 5, start, engine.trace, error);
      return;
    }
    if Truthy(loginErrorMessage) {
      if removeOnError {
        error := engine.Call(RemoveUserInfo);
        Advance(start, full, script.faults, 6, engine.trace);
        if error.Some? {
          AttemptThrowsAt(script, sel, info, removeOnError, 6, start, engine.trace, error);
          return;
        }
      }
      error := loginErrorMessage;
      AttemptRunsThrough(script, sel, info, removeOnError, start, engine.trace, error);
      return;
    }
    AttemptRunsThrough(script, sel, info, removeOnError, start, engine.trace, error);
  }

  /** The engine's trace after `login`, call by call, is the trace the
      specification gives. */
  lemma LoginTraceAssembled(script: Script, browser: nat, info: LoginInfo, options: LoginOptions, next: nat,
                            before: seq<Event>, after: seq<Event>)
    requires var run := AttemptRun(script, SelectorsFor(options), info, RemovesOnError(options));
      after == before + [NewContext(browser, next)] + [NewPage(next, next + 1)] + run.made
               + if run.error.Some? then [CloseContext(next)] else []
    ensures after == before + LoginTrace(script, browser, info, options, next)
  {
  }

  /** `login(browser, info, loginOptions)` */
  method Login(engine: FakeEngine, browser: nat, info: LoginInfo, options: LoginOptions)
    returns (r: Result<LoginContext>)
    modifies engine`trace, engine`nextId
    ensures engine.nextId == old(engine.nextId) + 2
    ensures engine.trace == old(engine.trace) + LoginTrace(engine.script, browser, info, options, old(engine.nextId))
    ensures r == LoginResult(engine.script, info, options, old(engine.nextId))
  {
    var target := DefaultTarget(options.target);
    var loginSelectors := LoginSelectors(target);
    var ctx := engine.NewContext(browser);
    var page := engine.NewPage(ctx);
    var error := Attempt(engine, loginSelectors, info, RemovesOnError(options));
    if error.Some? {
      engine.CloseContext(ctx);
      r := Failure(error.value);
    } else {
      r := Success(LoginContext(ctx, page));
      assert engine.trace + [] == engine.trace;
    }
    LoginTraceAssembled(engine.script, browser, info, options, ctx, old(engine.trace), engine.trace);
  }
}
