# dhu login core in Dafny

This project models the session lifecycle of `dhu`, a command-line client for a
university web portal. The modelled code is `packages/core/login.ts`:

- `login` opens a browsing context and a page and drives the portal's login form:
  - navigate to the login page;
  - give up if a maintenance notice shows;
  - type the id and the password, then submit;
  - fail if the portal shows a login error, first removing the stored credentials
    when the caller asks for it;
  - close the context on any failure.
- `withBrowser` runs a callback in a browser it launches and then closes, and turns
  the callback's outcome into `{data}` or `{error}`.
- `withLogin` reads the stored user, then logs in and runs the caller's callback
  inside `withBrowser`.
- `withPage` runs the caller's callback on a fresh page inside `withBrowser`. It
  answers `null` instead of an error when that callback throws, so a callback that
  itself returns `null` cannot be told apart from one that threw.

The browser engine and the credential store are one scripted fake engine, a Dafny
class (`Engine.FakeEngine`):
- It records every call made on it, in order, in a trace.
- It hands out numbers for the browsers, contexts and pages it opens.
- It answers from a fixed script: what the two DOM probes find, and which calls
  throw and with what message.

The primitive calls (`chromium.launch`, `browser.newContext`, `ctx.newPage`, the
page calls, `removeUserInfo`, the two `close` calls and the caller's callback) are
methods of that class. `login`, `withBrowser`, `withLogin` and `withPage` are
imperative methods of their modules (`Login.Login`, `Scope.WithBrowser`,
`Scope.WithLogin`, `Scope.WithPage`) that take the engine and make those calls on
it. Each of these methods is proved against a function: the trace it leaves and the result it returns are
those of a declarative specification. The specification's own properties are
proved as lemmas:
- step order;
- which selectors are used;
- the maintenance and login-error paths;
- credential removal;
- context and browser release;
- the shape of the results;
- two whole sessions.

The `Result` type is kept in the source's shape, an object with an optional
`error` and an optional `data`. That makes "exactly one of them is set" a proved
property rather than a property of the type. A callback the model cannot see is
represented by its outcome: it returns a value or throws a message.

Files:
- `results.dfy` (`Results`): `Option`, `Outcome`, `Result`.
- `selectors.dfy` (`Selectors`): `LoginTarget`, `LOGIN_SELECTORS`, the `"pc"` default.
- `text.dfy` (`JsText`): `String.prototype.trim`, as the DOM probes use it.
- `engine.dfy` (`Engine`): the fake engine, the DOM probes, "first throwing call".
- `login.dfy` (`Login`): `login`.
- `login_properties.dfy` (`LoginProperties`): what `login` guarantees.
- `scope.dfy` (`Scope`): `withBrowser`, `withLogin`, `withPage`.
- `scope_properties.dfy` (`ScopeProperties`): what they guarantee.
- `scenarios.dfy` (`Scenarios`): a successful session and a rejected password, end to end.

Where the code and the intended contract of this core disagree, the model follows
the code:
- A successful `withLogin` never closes the login context itself; only
  `browser.close()` tears it down. `Scenarios.SuccessfulSession` shows a trace with
  no `CloseContext`, and `ScopeProperties.WithLoginRunsCallerAfterLogin` states the
  count of `CloseContext` as 0.
- Several calls of `login` sit outside its own `try`: `browser.newContext` and
  `ctx.newPage` before it, and `ctx.close` inside its `catch`. A throw from one of
  them rejects `login`'s own promise instead of becoming `{error}`. Inside
  `withLogin`, however, `login` is awaited within `withBrowser`'s `try`
  (packages/core/login.ts:125-130 and 147-153), so such a throw becomes
  `withLogin`'s `{error}` and the browser is still closed. Only `getUserData`,
  `chromium.launch` and `browser.close` escape `withLogin` itself. The fake engine's
  versions of all these calls never throw, so the model makes no claim about
  either case.
- `login` returns the caught value itself as `error`, an `Error` object rather than
  a string. The model carries its message.

## Model

| member | source | states |
|---|---|---|
| Results.Failure | packages/core/login.ts:106 | `{ error }` carries the error and no data |
| Results.Success | packages/core/login.ts:109 | `{ data }` carries the data and no error |
| Selectors.LoginSelectors | packages/core/login.ts:37-58 | every locator registered for a target belongs to that target, and its four roles use four different constants |
| Selectors.DefaultTarget | packages/core/login.ts:65 | an omitted target means `"pc"`; a given target is used as it is |
| Selectors.TargetsDisjoint | packages/core/login.ts:37-58 | the `pc` and `mobile` selector sets share no locator |
| JsText.Trim | packages/core/login.ts:77 | `trim()` never lengthens its input and leaves no white space at either end; `JsText.TrimUnique` pins down exactly which slice it keeps |
| JsText.TrimMargins | packages/core/login.ts:77 | `trim()` keeps a slice of its input, with white space only before and after it and no white space at its ends |
| JsText.TrimEmptyIffBlank | packages/core/login.ts:77 | trimmed text is empty exactly when the text is all white space |
| JsText.TrimUnique | packages/core/login.ts:77 | any slice with white-space margins and no white space at its ends is the trimmed text |
| JsText.TrimIdempotent | packages/core/login.ts:77 | trimming twice is trimming once |
| Engine.Script.Thrown | packages/core/login.ts:71-103 | a call throws exactly when the script lists it as throwing, and what it throws is the message the script gives for it |
| Engine.Probe | packages/core/login.ts:74-79 | the probe's value is `null` exactly when no element is found; a found element gives its text without surrounding white space |
| Engine.Truthy | packages/core/login.ts:81 | `if (message)` is taken for every probe value except `null` and `""` |
| Engine.ProbeTriState | packages/core/login.ts:74-81 | a probe reads an absent element as `null` and a blank one as `""`; it is truthy exactly when the element shows non-blank text, and that value is the trimmed text |
| Engine.FirstFault | packages/core/login.ts:71-103 | the index of the first call that throws: every earlier call succeeds, and the call at that index throws unless every call succeeded |
| Engine.FirstFaultAt | packages/core/login.ts:71-103 | the first throwing call is determined by the calls before it succeeding and that call throwing |
| Engine.FakeEngine.Launch | packages/core/login.ts:145 | `chromium.launch` is recorded and the browser gets the counter's next number, which the counter then passes |
| Engine.FakeEngine.CloseBrowser | packages/core/login.ts:154 | `browser.close()` is recorded |
| Engine.FakeEngine.NewContext | packages/core/login.ts:69 | `browser.newContext` is recorded and the context gets the counter's next number, which the counter then passes |
| Engine.FakeEngine.NewPage | packages/core/login.ts:70 | `ctx.newPage()` is recorded and the page gets the counter's next number, which the counter then passes |
| Engine.FakeEngine.CloseContext | packages/core/login.ts:104 | `ctx.close()` is recorded |
| Engine.FakeEngine.Call | packages/core/login.ts:72-98 | navigating, typing, clicking or removing the credentials is recorded whether or not it throws, and throws as scripted |
| Engine.FakeEngine.Evaluate | packages/core/login.ts:74-79 | `page.evaluate(probe)` is recorded, throws as scripted, and returns the probe's value for the element on the page |
| Engine.FakeEngine.RunCallback | packages/core/login.ts:137 | the caller's callback running is recorded |
| Login.SelectorsForTarget | packages/core/login.ts:65-66 | `SelectorsFor`: the mobile selector set is used exactly when `"mobile"` is requested; `"pc"` and an omitted target use the desktop set |
| Login.RemovesOnError | packages/core/login.ts:97 | the stored credentials are removed on a login error only when `removeUserInfoOnError` is `true`; an omitted or `false` flag keeps them |
| Login.AttemptRun | packages/core/login.ts:71-101 | the try block makes a non-empty prefix of its calls, and ends without an error only after making all of them |
| Login.LoginTrace | packages/core/login.ts:69-104 | `login` opens its context and then its page before any other call, and makes at least one call on the page |
| Login.LoginResult | packages/core/login.ts:103-109 | exactly one of `error` and `data` is set, and the data is the context and page `login` opened |
| Login.LoginCallsArePrefix | packages/core/login.ts:72-101 | `LoginCalls`: with no throwing call, the try block makes the first two, six or seven steps, in source order |
| Login.AttemptThrowsAt | packages/core/login.ts:71-107 | when the k-th step throws after the earlier ones succeeded, the try block has made steps 0..k and ends with that message |
| Login.AttemptRunsThrough | packages/core/login.ts:81-101 | when no step throws, the try block ends with the maintenance notice, else the login error text, else no error |
| Login.Attempt | packages/core/login.ts:71-101 | the try block, step by step, makes exactly the calls of its specification and ends with its error |
| Login.Login | packages/core/login.ts:60-110 | `login` opens a context and a page, runs the try block, closes the context exactly on error, and returns `{error}` or `{data: {ctx, page}}` as specified |
| LoginProperties.AttemptFollowsSourceOrder | packages/core/login.ts:72-100 | the calls are a prefix of navigate, maintenance probe, type id, type password, submit, error probe, remove credentials; every call but the last succeeded; the block stops before the error probe only because a call threw or the maintenance notice showed |
| LoginProperties.AttemptErrorSource | packages/core/login.ts:81-106 | the error is the message of the call that threw, else the trimmed maintenance notice, else the trimmed login error, else there is none |
| LoginProperties.AttemptMakesSteps | packages/core/login.ts:72-98 | every call of the try block is one of its seven steps |
| LoginProperties.LoginUsesTargetSelectors | packages/core/login.ts:65-66 | the target defaults to `pc`; every navigate, type and click of `login` uses the requested target's selector set in its assigned role, with the user's id and password typed into their own fields, and never a locator of another target |
| LoginProperties.MaintenanceNoticeStopsLogin | packages/core/login.ts:74-87 | a notice that shows stops the attempt before any typing, clicking or credential removal, and the error is the trimmed notice when navigating and probing did not throw; an absent or blank notice lets the attempt go on to type the id |
| LoginProperties.StepsUseSelectors | packages/core/login.ts:72-98 | `FullSequence`, the seven steps of the try block: each uses the selector set in its assigned role and only that set's locators, with the id and the password typed into their own fields |
| LoginProperties.RemovalIsLastStep | packages/core/login.ts:96-100 | the credentials are removed only as the last step |
| LoginProperties.AttemptRemovesIff | packages/core/login.ts:96-98 | all seven steps are made exactly when the attempt reaches the error probe, the error shows and removal was requested |
| LoginProperties.AttemptRemovalCount | packages/core/login.ts:89-101 | the try block removes the credentials once when it reaches the error probe, the error shows and removal was requested, and never otherwise |
| LoginProperties.AttemptFailsOnLoginError | packages/core/login.ts:96-101 | once the error probe shows text the try block fails, with the trimmed text unless removing the credentials threw |
| LoginProperties.LoginErrorRemovesCredentialsOnlyOnRequest | packages/core/login.ts:89-101 | after a login error shows, the credentials are removed exactly once when `removeUserInfoOnError` is true and never otherwise, and the attempt fails with the trimmed error text unless removal threw; nothing else ever removes them |
| LoginProperties.LoginSucceedsIff | packages/core/login.ts:96-109 | `login` returns data exactly when every step up to the error probe succeeded, no maintenance notice showed and no login error showed |
| LoginProperties.AttemptLeavesContextsAlone | packages/core/login.ts:72-98 | no step of the try block opens or closes a context |
| LoginProperties.LoginReleasesContextOnFailure | packages/core/login.ts:69-109 | exactly one of `error` and `data` is set; data is the opened context and page; the context is opened first, once, and closed exactly once on failure and never on success |
| LoginProperties.LoginStaysInBrowser | packages/core/login.ts:60-110 | `login` neither launches nor closes a browser and never runs the caller's callback |
| LoginProperties.ThrownErrorIsReturned | packages/core/login.ts:103-106 | a call of the try block that throws makes its message `login`'s error |
| Scope.Settle | packages/core/login.ts:147-153 | exactly one of `data` and `error` is set: the returned value when the callback returned, the thrown message when it threw |
| Scope.WorkOutcome | packages/core/login.ts:125-172 | `withPage`'s callback never throws, and a value a callback returns is the caller's own or `withPage`'s `null` |
| Scope.BrowserResult | packages/core/login.ts:146-155 | `withBrowser` returns exactly one of `data` and `error`, and never an error for `withPage`'s callback |
| Scope.WithLoginResult | packages/core/login.ts:115-139 | exactly one of `error` and `data` is set; without a stored user the error is the fixed message; data is only ever the caller's value, after a stored user was found |
| Scope.RunWork | packages/core/login.ts:125-137 | each callback makes the calls of its specification and settles as specified; given that every thrown value is a truthy `Error`, `withLogin`'s defensive "failed to init loginContext" branch cannot be reached |
| Scope.WithBrowser | packages/core/login.ts:141-156 | launch, run the callback, record its outcome, close the browser, as specified |
| Scope.WithLogin | packages/core/login.ts:115-139 | no stored user gives the fixed error with no engine call and no new browser, context or page; otherwise `withBrowser` around login and the callback, taking the counter's next three numbers |
| Scope.WithPage | packages/core/login.ts:158-173 | `withBrowser` around a new context and page and the callback, with `null` for a throw, taking the counter's next three numbers |
| ScopeProperties.WorkStaysInBrowser | packages/core/login.ts:125-137 | `WorkTrace`: no callback launches or closes a browser |
| ScopeProperties.BrowserLaunchedAndClosedOnce | packages/core/login.ts:145-155 | `BrowserTrace`: the browser is launched first and closed last, each exactly once, so it is closed only after the callback settled |
| ScopeProperties.BrowserResultSettlesWork | packages/core/login.ts:146-153 | exactly one of `data` and `error` is set; data exactly when the callback returned, with its value; error with the thrown message exactly when it threw |
| ScopeProperties.WithLoginNeedsStoredUser | packages/core/login.ts:120-124 | without a stored user the result is "please provide login info, try `dhu login`" and no browser is launched |
| ScopeProperties.WithLoginTraceShape | packages/core/login.ts:125-154 | `WithLoginTrace` with a stored user: the launch, the login's calls, the caller's callback only when the login succeeded, then the browser's close |
| ScopeProperties.WithLoginReportsLoginError | packages/core/login.ts:126-133 | a failed login is returned as `withLogin`'s error; the caller's callback never runs; the login context is closed once and the browser once, last |
| ScopeProperties.WithLoginSettlesWithCaller | packages/core/login.ts:131-153 | after a successful login, `withLogin`'s result is the caller's callback's outcome: `{data}` with its value, or `{error}` with what it threw |
| ScopeProperties.WithLoginRunsCallerAfterLogin | packages/core/login.ts:134-137 | after a successful login the callback runs once, right before the browser closes, and the login context is not closed on its own |
| ScopeProperties.WithPageNeverFails | packages/core/login.ts:162-172 | `withPage` never returns an error: data is the callback's value, itself possibly `null`, or `null` when it threw; the page's context is not closed on its own |
| ScopeProperties.WithPageNullLikeThrow | packages/core/login.ts:166-170 | a callback that returns `null` and one that throws give the same result, `{ data: null }`, and the same calls |
| Scenarios.SuccessfulLogin | packages/core/login.ts:60-110 | desktop login of u1/p1 with nothing shown: the exact calls, and the context and page as data |
| Scenarios.SuccessfulSession | packages/core/login.ts:115-156 | that session through `withLogin`: data is the callback's value, and the exact trace has one browser close and no context close |
| Scenarios.RejectedLogin | packages/core/login.ts:89-106 | desktop login of u1/p1 rejected with text reading "wrong password", removal requested: every step runs, the credentials are removed, the context is closed, and the error is "wrong password" |
| Scenarios.RejectedPasswordSession | packages/core/login.ts:115-156 | that session through `withLogin`: error "wrong password", credentials removed once, context and browser closed once each, callback never run |
| Scenarios.RejectionTextReads | packages/core/login.ts:92 | a rejection rendered with surrounding white space reads "wrong password" once trimmed |

## Left out

- The values of the selector constants in `./selectors` are not part of this model. Each constant is a distinct symbol (`Selectors.Locator`), so the model assumes the eight constants are distinct strings.
- The `navigate` helper (`./navigate`) is not part of this model. `byGoto` and `byClick` are one call each, which may throw; waiting for navigation to settle is not modelled.
- The credential store (`./userData`) is not part of this model. `getUserData()?.user` is a parameter of `Scope.WithLogin`. `removeUserInfo` is a recorded call that may throw; the stored data itself is not kept.
- Playwright itself, the DOM, and launch options (`option`) are not modelled. A DOM probe is the element it finds: absent, or present with its text content.
- `chromium.launch`, `browser.newContext`, `ctx.newPage`, `ctx.close` and `browser.close` never throw in the fake engine, and `getUserData` is a given value. A failure of `browser.newContext`, `ctx.newPage` or `login`'s `ctx.close` would reject `login`'s own promise, but inside `withLogin` it would be caught by `withBrowser` and returned as `{error}` after the browser is closed; a failure of `getUserData`, `chromium.launch` or `browser.close` would reject `withLogin`'s promise. None of these failures is modelled.
- Scope.WithPage: does not model `browser.newContext` or `ctx.newPage` throwing inside its `try`. That would also give `null`.
- Errors are their messages. The source passes `Error` objects through `error`, and the model assumes every thrown value is one, so it is truthy. With that assumption, `if (error)` in `withLogin` is the same as "an error is present". A falsy throw inside `login`'s `try` (such as `throw undefined` from a page call) would give `{ error: undefined }`; `withLogin` would then skip `if (error)` and throw "failed to init loginContext" (packages/core/login.ts:134-136). The model does not capture that branch.
- A callback that returns `undefined` gives `{ data: undefined }` in the source, which reads as neither field set. In the model a callback always returns a value, so that case is left out.
- The caller's callbacks are opaque. Each is represented by its outcome, recorded as one call. What they do with the context or page is not modelled.
- `async`/`await` is not modelled: each call completes before the next starts.
- `exposeGlobalHelper` has an empty body and is not modelled.
- The `console.log` in `withPage` is output only and is not modelled.
