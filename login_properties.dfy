/** What one login attempt guarantees, stated over the trace and the result
    that `Login.Login` is proved to produce. */
module LoginProperties {
  import opened Results
  import opened Selectors
  import opened JsText
  import opened Engine
  import opened Login

  /** The locator a call uses, if any. */
  function LocatorOf(e: Event): Option<Locator> {
    match e
    case Goto(url) => Some(url)
    case Type(field, _) => Some(field)
    case Click(target) => Some(target)
    case _ => None
  }

  /** A call uses the selector set as the source assigns its roles: the login URL
      for navigation, the id into the id field, the password into the password
      field, the submit locator for the click. */
  predicate UsesSelectorsAsAssigned(e: Event, sel: SelectorSet, info: LoginInfo) {
    match e
    case Goto(url) => url == sel.url
    case Type(field, text) => (field == sel.id && text == info.id) || (field == sel.password && text == info.password)
    case Click(target) => target == sel.submit
    case _ => true
  }

  /** The attempt got past every step up to and including the login-error probe:
      no maintenance notice showed and none of those six calls threw. */
  predicate ReachesErrorProbe(script: Script, sel: SelectorSet, info: LoginInfo) {
    !Shows(script.notice) && Clean(FullSequence(sel, info), script.faults, 6)
  }

  /** The calls the try block makes are a prefix of the full sequence of steps,
      each call but the last succeeded, and the block stops early only because
      the last call threw or the maintenance notice showed. */
  lemma AttemptFollowsSourceOrder(script: Script, sel: SelectorSet, info: LoginInfo, removeOnError: bool)
    ensures var made := AttemptRun(script, sel, info, removeOnError).made;
      && made <= FullSequence(sel, info)
      && made == FullSequence(sel, info)[..|made|]
      && 1 <= |made|
      && (forall i :: 0 <= i < |made| - 1 ==> made[i] !in script.faults)
      && (|made| < 6 ==> made[|made| - 1] in script.faults || (|made| == 2 && Shows(script.notice)))
  {
    var calls := LoginCalls(script, sel, info, removeOnError);
    LoginCallsArePrefix(script, sel, info, removeOnError);
    var k := FirstFault(calls, script.faults);
    var made := AttemptRun(script, sel, info, removeOnError).made;
    assert made == if k < |calls| then calls[..k + 1] else calls;
  }

  /** The error of the attempt: the message of a call that threw, else the
      trimmed maintenance notice, else the trimmed login error text. */
  lemma AttemptErrorSource(script: Script, sel: SelectorSet, info: LoginInfo, removeOnError: bool)
    ensures var run := AttemptRun(script, sel, info, removeOnError);
      var last := run.made[|run.made| - 1];
      && run.made != []
      && (last in script.faults ==> run.error == Some(script.faults[last]))
      && (last !in script.faults ==>
            run.error == if Shows(script.notice) then Some(Trim(script.notice.text))
                         else if Shows(script.errorDetail) then Some(Trim(script.errorDetail.text))
                         else None)
  {
    var calls := LoginCalls(script, sel, info, removeOnError);
    LoginCallsArePrefix(script, sel, info, removeOnError);
    var k := FirstFault(calls, script.faults);
    if k == |calls| {
      assert calls[|calls| - 1] !in script.faults;
    }
  }

  /** Every call the attempt makes is one of the steps of the try block. */
  lemma AttemptMakesSteps(script: Script, sel: SelectorSet, info: LoginInfo, removeOnError: bool)
    ensures forall e :: e in AttemptRun(script, sel, info, removeOnError).made ==> e in FullSequence(sel, info)
  {
    var made := AttemptRun(script, sel, info, removeOnError).made;
    AttemptFollowsSourceOrder(script, sel, info, removeOnError);
    forall e | e in made
      ensures e in FullSequence(sel, info)
    {
      var i :| 0 <= i < |made| && made[i] == e;
      assert FullSequence(sel, info)[i] == e;
    }
  }

  /** Every call of `login` is a call of its attempt, or opens its context or
      its page, or closes its context. */
  lemma LoginTraceCalls(script: Script, browser: nat, info: LoginInfo, options: LoginOptions, next: nat)
    ensures forall e :: e in LoginTrace(script, browser, info, options, next) ==>
      || e in AttemptRun(script, SelectorsFor(options), info, RemovesOnError(options)).made
      || e == NewContext(browser, next) || e == NewPage(next, next + 1) || e == CloseContext(next)
  {
  }

  /** `login` uses only the selectors registered for the requested target, and
      `"pc"`'s when no target is given; the two targets share no locator. */
  lemma LoginUsesTargetSelectors(script: Script, browser: nat, info: LoginInfo, options: LoginOptions, next: nat)
    ensures options.target.None? ==> SelectorsFor(options) == LoginSelectors(Pc)
    ensures options.target.Some? ==> SelectorsFor(options) == LoginSelectors(options.target.value)
    ensures forall e :: e in LoginTrace(script, browser, info, options, next) ==>
              UsesSelectorsAsAssigned(e, SelectorsFor(options), info)
    ensures forall e :: e in LoginTrace(script, browser, info, options, next) && LocatorOf(e).Some? ==>
              TargetOf(LocatorOf(e).value) == DefaultTarget(options.target)
  {
    AttemptMakesSteps(script, SelectorsFor(options), info, RemovesOnError(options));
    LoginTraceCalls(script, browser, info, options, next);
    StepsUseSelectors(SelectorsFor(options), info);
  }

  /** Each step of the try block uses the selector set as assigned, and only
      locators of that set. */
  lemma StepsUseSelectors(sel: SelectorSet, info: LoginInfo)
    ensures forall e :: e in FullSequence(sel, info) ==>
              UsesSelectorsAsAssigned(e, sel, info) && (LocatorOf(e).Some? ==> LocatorOf(e).value in sel.Locators())
  {
  }

  /** A maintenance notice that shows stops the attempt before any typing or
      clicking, and unless navigating or probing threw, the error is the notice
      text.  A notice that is absent or blank lets the attempt go on to type the id. */
  lemma MaintenanceNoticeStopsLogin(script: Script, browser: nat, info: LoginInfo, options: LoginOptions, next: nat)
    ensures var trace := LoginTrace(script, browser, info, options, next);
      Shows(script.notice) ==> forall e :: e in trace ==> !e.Type? && !e.Click? && e != RemoveUserInfo
    ensures var sel := SelectorsFor(options);
      Shows(script.notice) && Goto(sel.url) !in script.faults && Evaluate(MaintenanceNotice) !in script.faults
      ==> LoginResult(script, info, options, next) == Failure(Trim(script.notice.text))
    ensures var sel := SelectorsFor(options);
      !Shows(script.notice) && Goto(sel.url) !in script.faults && Evaluate(MaintenanceNotice) !in script.faults
      ==> Type(sel.id, info.id) in LoginTrace(script, browser, info, options, next)
  {
    var sel := SelectorsFor(options);
    var removeOnError := RemovesOnError(options);
    var full := FullSequence(sel, info);
    var run := AttemptRun(script, sel, info, removeOnError);
    AttemptFollowsSourceOrder(script, sel, info, removeOnError);
    AttemptErrorSource(script, sel, info, removeOnError);
    LoginCallsArePrefix(script, sel, info, removeOnError);
    if Shows(script.notice) {
      assert |run.made| <= 2;
      forall e | e in LoginTrace(script, browser, info, options, next)
        ensures !e.Type? && !e.Click? && e != RemoveUserInfo
      {
        if e in run.made {
          var i :| 0 <= i < |run.made| && run.made[i] == e;
          assert e == full[i];
        }
      }
    }
    if Goto(sel.url) !in script.faults && Evaluate(MaintenanceNotice) !in script.faults {
      assert |run.made| >= 2 ==> run.made[1] == full[1];
      if !Shows(script.notice) {
        assert run.made[2] == full[2];
      }
    }
  }

  /** The credentials are removed only as the seventh, last step. */
  lemma RemovalIsLastStep(sel: SelectorSet, info: LoginInfo, n: nat)
    requires n <= 7
    ensures multiset(FullSequence(sel, info)[..n])[RemoveUserInfo] == if n == 7 then 1 else 0
  {
    var full := FullSequence(sel, info);
    var m := if n == 7 then 6 else n;
    assert forall i :: 0 <= i < m ==> full[..m][i] == full[i] && full[i] != RemoveUserInfo;
    if n == 7 {
      assert full[..7] == full[..6] + [RemoveUserInfo];
    }
  }

  /** The attempt makes all seven calls exactly when it gets past the login-error
      probe, that probe shows text and the flag is set. */
  lemma AttemptRemovesIff(script: Script, sel: SelectorSet, info: LoginInfo, removeOnError: bool)
    ensures |AttemptRun(script, sel, info, removeOnError).made| == 7
            <==> ReachesErrorProbe(script, sel, info) && Shows(script.errorDetail) && removeOnError
  {
    var full := FullSequence(sel, info);
    var calls := LoginCalls(script, sel, info, removeOnError);
    LoginCallsArePrefix(script, sel, info, removeOnError);
    var k := FirstFault(calls, script.faults);
    if ReachesErrorProbe(script, sel, info) && Shows(script.errorDetail) && removeOnError {
      assert calls == full && |calls| == 7 && calls[6] == RemoveUserInfo;
      FirstFaultAt(calls, script.faults, if RemoveUserInfo in script.faults then 6 else 7);
    }
  }

  /** The try block removes the stored credentials exactly once when it gets past
      the login-error probe, that probe shows text and the flag is set, and never
      otherwise. */
  lemma AttemptRemovalCount(script: Script, sel: SelectorSet, info: LoginInfo, removeOnError: bool)
    ensures multiset(AttemptRun(script, sel, info, removeOnError).made)[RemoveUserInfo]
            == if ReachesErrorProbe(script, sel, info) && Shows(script.errorDetail) && removeOnError then 1 else 0
  {
    var made := AttemptRun(script, sel, info, removeOnError).made;
    AttemptFollowsSourceOrder(script, sel, info, removeOnError);
    assert |made| <= |FullSequence(sel, info)| == 7;
    RemovalIsLastStep(sel, info, |made|);
    AttemptRemovesIff(script, sel, info, removeOnError);
  }

  /** Once the login-error probe shows text the try block fails, with that text
      unless removing the credentials threw. */
  lemma AttemptFailsOnLoginError(script: Script, sel: SelectorSet, info: LoginInfo, removeOnError: bool)
    requires ReachesErrorProbe(script, sel, info) && Shows(script.errorDetail)
    ensures AttemptRun(script, sel, info, removeOnError).error.Some?
    ensures !removeOnError || RemoveUserInfo !in script.faults
            ==> AttemptRun(script, sel, info, removeOnError).error == Some(Trim(script.errorDetail.text))
  {
    var calls := LoginCalls(script, sel, info, removeOnError);
    LoginCallsArePrefix(script, sel, info, removeOnError);
    FirstFaultAt(calls, script.faults, if |calls| == 7 && RemoveUserInfo in script.faults then 6 else |calls|);
  }

  /** After a login error shows: the stored credentials are removed exactly once
      when the flag is set and never when it is not, and the attempt fails, with
      the error text unless removing the credentials threw.  Credentials are never
      removed in any other case. */
  lemma LoginErrorRemovesCredentialsOnlyOnRequest(script: Script, browser: nat, info: LoginInfo,
                                                  options: LoginOptions, next: nat)
    ensures var trace := LoginTrace(script, browser, info, options, next);
      multiset(trace)[RemoveUserInfo]
      == if ReachesErrorProbe(script, SelectorsFor(options), info) && Shows(script.errorDetail) && RemovesOnError(options)
         then 1 else 0
    ensures ReachesErrorProbe(script, SelectorsFor(options), info) && Shows(script.errorDetail)
            ==> LoginResult(script, info, options, next).error.Some?
    ensures ReachesErrorProbe(script, SelectorsFor(options), info) && Shows(script.errorDetail)
            && (!RemovesOnError(options) || RemoveUserInfo !in script.faults)
            ==> LoginResult(script, info, options, next) == Failure(Trim(script.errorDetail.text))
  {
    var sel := SelectorsFor(options);
    var removeOnError := RemovesOnError(options);
    var run := AttemptRun(script, sel, info, removeOnError);
    var trace := LoginTrace(script, browser, info, options, next);
    AttemptRemovalCount(script, sel, info, removeOnError);
    assert multiset(trace)[RemoveUserInfo] == multiset(run.made)[RemoveUserInfo] by {
      var tail: seq<Event> := if run.error.Some? then [CloseContext(next)] else [];
      assert trace == [NewContext(browser, next), NewPage(next, next + 1)] + run.made + tail;
    }
    if ReachesErrorProbe(script, sel, info) && Shows(script.errorDetail) {
      AttemptFailsOnLoginError(script, sel, info, removeOnError);
    }
  }

  /** `login` succeeds exactly when it gets past the login-error probe and that
      probe shows nothing. */
  lemma LoginSucceedsIff(script: Script, info: LoginInfo, options: LoginOptions, next: nat)
    ensures LoginResult(script, info, options, next).data.Some?
            <==> ReachesErrorProbe(script, SelectorsFor(options), info) && !Shows(script.errorDetail)
  {
    var sel := SelectorsFor(options);
    var removeOnError := RemovesOnError(options);
    var calls := LoginCalls(script, sel, info, removeOnError);
    var full := FullSequence(sel, info);
    LoginCallsArePrefix(script, sel, info, removeOnError);
    var k := FirstFault(calls, script.faults);
    if ReachesErrorProbe(script, sel, info) && !Shows(script.errorDetail) {
      FirstFaultAt(calls, script.faults, 6);
    } else if !Shows(script.notice) && k == |calls| {
      assert forall i :: 0 <= i < 6 ==> full[i] == calls[i];
    }
  }

  /** No call of the attempt opens or closes a context. */
  lemma AttemptLeavesContextsAlone(script: Script, sel: SelectorSet, info: LoginInfo, removeOnError: bool,
                                   browser: nat, next: nat)
    ensures var made := AttemptRun(script, sel, info, removeOnError).made;
      multiset(made)[CloseContext(next)] == 0 && multiset(made)[NewContext(browser, next)] == 0
  {
    AttemptMakesSteps(script, sel, info, removeOnError);
    var made := AttemptRun(script, sel, info, removeOnError).made;
    assert CloseContext(next) !in made && NewContext(browser, next) !in made;
  }

  /** `login` returns exactly one of `error` and `data`; on success the data is
      the context and page it opened.  The context is opened once, and it is
      closed exactly once if the attempt failed and never if it succeeded. */
  lemma LoginReleasesContextOnFailure(script: Script, browser: nat, info: LoginInfo, options: LoginOptions, next: nat)
    ensures LoginResult(script, info, options, next).IsExclusive()
    ensures LoginResult(script, info, options, next).data.Some?
            ==> LoginResult(script, info, options, next).data.value == LoginContext(next, next + 1)
    ensures var trace := LoginTrace(script, browser, info, options, next);
      && trace[0] == NewContext(browser, next)
      && multiset(trace)[NewContext(browser, next)] == 1
      && multiset(trace)[CloseContext(next)] == if LoginResult(script, info, options, next).error.Some? then 1 else 0
  {
    var sel := SelectorsFor(options);
    var removeOnError := RemovesOnError(options);
    var run := AttemptRun(script, sel, info, removeOnError);
    AttemptLeavesContextsAlone(script, sel, info, removeOnError, browser, next);
    ContextFrame(run.made, run.error.Some?, browser, next);
  }

  /** A trace that opens a context and a page, makes calls that neither open nor
      close that context, and closes it only when `closes`, opens it once and
      closes it that many times. */
  lemma ContextFrame(made: seq<Event>, closes: bool, browser: nat, next: nat)
    requires multiset(made)[CloseContext(next)] == 0 && multiset(made)[NewContext(browser, next)] == 0
    ensures var trace := [NewContext(browser, next), NewPage(next, next + 1)] + made
                         + if closes then [CloseContext(next)] else [];
      && trace[0] == NewContext(browser, next)
      && multiset(trace)[NewContext(browser, next)] == 1
      && multiset(trace)[CloseContext(next)] == if closes then 1 else 0
  {
  }

  /** `login` works inside the browser it is given: it neither launches nor
      closes a browser and never runs the caller's callback. */
  lemma LoginStaysInBrowser(script: Script, browser: nat, info: LoginInfo, options: LoginOptions, next: nat)
    ensures forall e :: e in LoginTrace(script, browser, info, options, next) ==>
              !e.Launch? && !e.CloseBrowser? && !e.RunCallback?
  {
    AttemptMakesSteps(script, SelectorsFor(options), info, RemovesOnError(options));
    LoginTraceCalls(script, browser, info, options, next);
  }

  /** An error thrown by any call of the try block becomes `login`'s error. */
  lemma ThrownErrorIsReturned(script: Script, browser: nat, info: LoginInfo, options: LoginOptions, next: nat)
    ensures var made := AttemptRun(script, SelectorsFor(options), info, RemovesOnError(options)).made;
      made != [] && made[|made| - 1] in script.faults
      ==> LoginResult(script, info, options, next) == Failure(script.faults[made[|made| - 1]])
  {
    AttemptErrorSource(script, SelectorsFor(options), info, RemovesOnError(options));
  }
}
