/** The login selector registry: for each login target, the login page URL and
    the locators of the id field, the password field and the submit button. */
module Selectors {
  import opened Results

  /** Which interface of the portal to log in through. */
  datatype LoginTarget = Pc | Mobile

  /** The eight constants the registry is built from.  Their string values are
      defined outside the login code; here each stands for its own constant. */
  datatype Locator =
    | UrlTop | LoginId | LoginPassword | LoginSubmitButton
    | MobileUrlTop | MobileLoginId | MobileLoginPassword | MobileLoginSubmitButton

  /** The target a constant is registered for. */
  function TargetOf(l: Locator): LoginTarget {
    match l
    case UrlTop | LoginId | LoginPassword | LoginSubmitButton => Pc
    case _ => Mobile
  }

  datatype SelectorSet = SelectorSet(url: Locator, id: Locator, password: Locator, submit: Locator)
  {
    /** The locators of the set. */
    function Locators(): set<Locator> {
      {url, id, password, submit}
    }
  }

  /** `LOGIN_SELECTORS[target]`: every locator of the set belongs to `target`,
      and the four roles use four different constants. */
  function LoginSelectors(target: LoginTarget): (s: SelectorSet)
    ensures forall l :: l in s.Locators() ==> TargetOf(l) == target
    ensures |s.Locators()| == 4
  {
    match target
    case Pc => SelectorSet(UrlTop, LoginId, LoginPassword, LoginSubmitButton)
    case Mobile => SelectorSet(MobileUrlTop, MobileLoginId, MobileLoginPassword, MobileLoginSubmitButton)
  }

  /** `loginOptions.target ?? "pc"`: an omitted target means the desktop interface. */
  function DefaultTarget(target: Option<LoginTarget>): (t: LoginTarget)
    ensures target.None? ==> t == Pc
    ensures target.Some? ==> t == target.value
  {
    if target.Some? then target.value else Pc
  }

  /** The two targets share no locator, so a call that uses one target's set never
      touches a locator of the other. */
  lemma TargetsDisjoint(t: LoginTarget, u: LoginTarget)
    requires t != u
    ensures LoginSelectors(t).Locators() !! LoginSelectors(u).Locators()
  {
  }
}
