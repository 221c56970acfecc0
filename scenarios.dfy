/** Two whole sessions through `withLogin`, on a portal that never throws: one
    that logs in and runs the caller's work, one whose password is rejected. */
module Scenarios {
  import opened Results
  import opened Selectors
  import opened JsText
  import opened Engine
  import opened Login
  import opened Scope
  import opened ScopeProperties

  /** The stored user of both sessions. */
  const User := LoginInfo("u1", "p1")

  /** The desktop login on a portal where nothing throws and neither the
      maintenance notice nor a login error shows (each absent or blank). */
  lemma SuccessfulLogin(script: Script)
    requires script.faults == map[] && !Shows(script.notice) && !Shows(script.errorDetail)
    ensures LoginResult(script, User, NoOptions, 1) == Success(LoginContext(1, 2))
    ensures LoginTrace(script, 0, User, NoOptions, 1)
            == [NewContext(0, 1), NewPage(1, 2), Goto(UrlTop), Evaluate(MaintenanceNotice),
                Type(LoginId, "u1"), Type(LoginPassword, "p1"), Click(LoginSubmitButton),
                Evaluate(LoginErrorDetail)]
  {
    var full := FullSequence(LoginSelectors(Pc), User);
    AttemptRunsThrough(script, LoginSelectors(Pc), User, false, [], [] + full[..6], None);
  }

  /** The whole session of that login: the caller's value comes back as data,
      the browser is closed once and the login context is not closed on its own. */
  lemma SuccessfulSession(script: Script, value: int)
    requires script.faults == map[] && !Shows(script.notice) && !Shows(script.errorDetail)
    ensures WithLoginResult(script, Some(User), Returns(value), NoOptions, 0) == Success(value)
    ensures WithLoginTrace(script, Some(User), Returns(value), NoOptions, 0)
            == [Launch(0), NewContext(0, 1), NewPage(1, 2), Goto(UrlTop), Evaluate(MaintenanceNotice),
                Type(LoginId, "u1"), Type(LoginPassword, "p1"), Click(LoginSubmitButton),
                Evaluate(LoginErrorDetail), RunCallback, CloseBrowser(0)]
  {
    SuccessfulLogin(script);
    WithLoginTraceShape(script, User, Returns(value), NoOptions, 0);
  }

  /** The desktop login where nothing throws, no maintenance notice shows, the
      portal rejects the password showing text that reads "wrong password" once
      trimmed, and the caller asked for the credentials to be removed: every step
      runs, the credentials are removed last, and the context is closed. */
  lemma RejectedLogin(script: Script, options: LoginOptions)
    requires script.faults == map[] && !Shows(script.notice)
    requires script.errorDetail.Present? && Trim(script.errorDetail.text) == "wrong password"
    requires options == LoginOptions(Some(Pc), Some(true))
    ensures LoginResult(script, User, options, 1) == Failure("wrong password")
    ensures LoginTrace(script, 0, User, options, 1)
            == [NewContext(0, 1), NewPage(1, 2), Goto(UrlTop), Evaluate(MaintenanceNotice),
                Type(LoginId, "u1"), Type(LoginPassword, "p1"), Click(LoginSubmitButton),
                Evaluate(LoginErrorDetail), RemoveUserInfo, CloseContext(1)]
  {
    TrimEmptyIffBlank(script.errorDetail.text);
    var full := FullSequence(LoginSelectors(Pc), User);
    AttemptRunsThrough(script, LoginSelectors(Pc), User, true, [], [] + full[..7], Some("wrong password"));
  }

  /** The whole session of that login: the error is the trimmed text, the
      credentials are removed, the context and the browser are closed once each
      and the caller's work never runs. */
  lemma RejectedPasswordSession(script: Script, options: LoginOptions, value: int)
    requires script.faults == map[] && !Shows(script.notice)
    requires script.errorDetail.Present? && Trim(script.errorDetail.text) == "wrong password"
    requires options == LoginOptions(Some(Pc), Some(true))
    ensures WithLoginResult(script, Some(User), Returns(value), options, 0) == Failure("wrong password")
    ensures WithLoginTrace(script, Some(User), Returns(value), options, 0)
            == [Launch(0), NewContext(0, 1), NewPage(1, 2), Goto(UrlTop), Evaluate(MaintenanceNotice),
                Type(LoginId, "u1"), Type(LoginPassword, "p1"), Click(LoginSubmitButton),
                Evaluate(LoginErrorDetail), RemoveUserInfo, CloseContext(1), CloseBrowser(0)]
  {
    RejectedLogin(script, options);
    WithLoginTraceShape(script, User, Returns(value), options, 0);
  }

  /** A rejection as the page renders it, surrounded by white space, reads
      "wrong password" once trimmed. */
  lemma RejectionTextReads(shown: string)
    requires shown == "\n  wrong password "
    ensures Trim(shown) == "wrong password"
  {
    TrimUnique(shown, 3, 17);
    assert shown[3..17] == "wrong password";
  }
}
