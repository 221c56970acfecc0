/** A scripted stand-in for the browser engine and the credential store.  It
    records every call made on it, in order, and answers from a fixed script:
    what the two DOM probes find, and which calls throw and with what message. */
module Engine {
  import opened Results
  import opened Selectors
  import opened JsText

  /** The two `document.querySelector` probes of the login page. */
  datatype Query =
    | MaintenanceNotice    // "#funcContent > div > p"
    | LoginErrorDetail     // ".ui-messages-error-detail"

  /** What a probe finds: no element (`null`), or an element with its text content. */
  datatype Element = Absent | Present(text: string)

  /** The credentials the store hands out (`LoginInfo`). */
  datatype LoginInfo = LoginInfo(id: string, password: string)

  /** One call on the engine or the credential store.  Browsers, contexts and
      pages are named by the number the engine gave them when they were made. */
  datatype Event =
    | Launch(browser: nat)
    | CloseBrowser(browser: nat)
    | NewContext(browser: nat, ctx: nat)
    | NewPage(ctx: nat, page: nat)
    | CloseContext(ctx: nat)
    | Goto(url: Locator)
    | Evaluate(query: Query)
    | Type(field: Locator, text: string)
    | Click(target: Locator)
    | RemoveUserInfo
    | RunCallback          // the caller's own callback was invoked

  /** The fake engine's script. */
  datatype Script = Script(faults: map<Event, string>, notice: Element, errorDetail: Element)
  {
    /** The element a probe finds on the page. */
    function Find(q: Query): Element {
      match q
      case MaintenanceNotice => notice
      case LoginErrorDetail => errorDetail
    }

    /** The error a call throws, if the script makes it throw. */
    function Thrown(e: Event): (r: Option<string>)
      ensures r.Some? <==> e in faults
      ensures r.Some? ==> r.value == faults[e]
    {
      if e in faults then Some(faults[e]) else None
    }
  }

  /** The value the page-side probe returns:
      `e === null ? e : e?.textContent?.trim() ?? ""`. */
  function Probe(e: Element): (r: Option<string>)
    ensures r.None? <==> e.Absent?
    ensures e.Present? ==> r == Some(Trim(e.text))
  {
    match e
    case Absent => None
    case Present(text) => Some(Trim(text))
  }

  /** JavaScript truthiness of that value: `null` and `""` are false. */
  predicate Truthy(v: Option<string>)
    ensures Truthy(v) <==> v != None && v != Some("")
  {
    v.Some? && v.value != []
  }

  /** Whether an element shows text: it is there and its text is not blank. */
  predicate Shows(e: Element) {
    e.Present? && !IsBlank(e.text)
  }

  /** The three readings of a probe: an absent element and an element whose text
      is blank both read as "no problem"; only an element that shows text reads
      as a failure, whose message is that text without surrounding white space. */
  lemma ProbeTriState(e: Element)
    ensures e.Absent? ==> Probe(e) == None
    ensures e.Present? && IsBlank(e.text) ==> Probe(e) == Some([])
    ensures Truthy(Probe(e)) <==> Shows(e)
    ensures Shows(e) ==> Probe(e) == Some(Trim(e.text))
  {
    if e.Present? {
      TrimEmptyIffBlank(e.text);
    }
  }

  /** Index of the first call of `calls` that the script makes throw, or `|calls|`
      when none of them does. */
  function FirstFault(calls: seq<Event>, faults: map<Event, string>): (k: nat)
    ensures k <= |calls|
    ensures forall i :: 0 <= i < k ==> calls[i] !in faults
    ensures k < |calls| ==> calls[k] in faults
  {
    if calls == [] || calls[0] in faults then 0
    else 1 + FirstFault(calls[1..], faults)
  }

  /** The position of the first throwing call is determined by the calls before
      it succeeding and that call throwing. */
  lemma FirstFaultAt(calls: seq<Event>, faults: map<Event, string>, k: nat)
    requires k <= |calls|
    requires forall i :: 0 <= i < k ==> calls[i] !in faults
    requires k < |calls| ==> calls[k] in faults
    ensures FirstFault(calls, faults) == k
  {
  }

  /** None of the first `k` calls of `calls` throws. */
  predicate Clean(calls: seq<Event>, faults: map<Event, string>, k: nat) {
    k <= |calls| && forall i :: 0 <= i < k ==> calls[i] !in faults
  }

  /** Making the next call of `calls` extends the trace by that call, and when it
      does not throw, one more call is known not to throw. */
  lemma Advance(start: seq<Event>, calls: seq<Event>, faults: map<Event, string>, n: nat, trace: seq<Event>)
    requires n < |calls| && Clean(calls, faults, n)
    requires trace == start + calls[..n] + [calls[n]]
    ensures trace == start + calls[..n + 1]
    ensures calls[n] !in faults ==> Clean(calls, faults, n + 1)
  {
    assert calls[..n + 1] == calls[..n] + [calls[n]];
  }

  class FakeEngine {
    const script: Script
    /** Every call made so far, oldest first. */
    var trace: seq<Event>
    /** The number the next browser, context or page will get. */
    var nextId: nat

    constructor (script: Script)
      ensures this.script == script && trace == [] && nextId == 0
    {
      this.script := script;
      trace := [];
      nextId := 0;
    }

    /** `chromium.launch(option)` */
    method Launch() returns (browser: nat)
      modifies this`trace, this`nextId
      ensures browser == old(nextId) && nextId == browser + 1
      ensures trace == old(trace) + [Event.Launch(browser)]
    {
      browser := nextId;
      nextId := nextId + 1;
      trace := trace + [Event.Launch(browser)];
    }

    /** `browser.close()` */
    method CloseBrowser(browser: nat)
      modifies this`trace
      ensures trace == old(trace) + [Event.CloseBrowser(browser)]
    {
      trace := trace + [Event.CloseBrowser(browser)];
    }

    /** `browser.newContext({ acceptDownloads: true })` */
    method NewContext(browser: nat) returns (ctx: nat)
      modifies this`trace, this`nextId
      ensures ctx == old(nextId) && nextId == ctx + 1
      ensures trace == old(trace) + [Event.NewContext(browser, ctx)]
    {
      ctx := nextId;
      nextId := nextId + 1;
      trace := trace + [Event.NewContext(browser, ctx)];
    }

    /** `ctx.newPage()` */
    method NewPage(ctx: nat) returns (page: nat)
      modifies this`trace, this`nextId
      ensures page == old(nextId) && nextId == page + 1
      ensures trace == old(trace) + [Event.NewPage(ctx, page)]
    {
      page := nextId;
      nextId := nextId + 1;
      trace := trace + [Event.NewPage(ctx, page)];
    }

    /** `ctx.close()` */
    method CloseContext(ctx: nat)
      modifies this`trace
      ensures trace == old(trace) + [Event.CloseContext(ctx)]
    {
      trace := trace + [Event.CloseContext(ctx)];
    }

    /** A call that may throw: navigating, typing, clicking or removing the stored
        credentials.  It is recorded whether or not it throws. */
    method Call(e: Event) returns (thrown: Option<string>)
      modifies this`trace
      ensures trace == old(trace) + [e]
      ensures thrown == script.Thrown(e)
    {
      trace := trace + [e];
      thrown := script.Thrown(e);
    }

    /** `page.evaluate(probe)`: the probe's value, unless the call throws. */
    method Evaluate(q: Query) returns (value: Option<string>, thrown: Option<string>)
      modifies this`trace
      ensures trace == old(trace) + [Event.Evaluate(q)]
      ensures thrown == script.Thrown(Event.Evaluate(q))
      ensures value == Probe(script.Find(q))
    {
      thrown := Call(Event.Evaluate(q));
      value := Probe(script.Find(q));
    }

    /** Marks the point where the caller's callback runs. */
    method RunCallback()
      modifies this`trace
      ensures trace == old(trace) + [Event.RunCallback]
    {
      trace := trace + [Event.RunCallback];
    }
  }
}
