/**
 * One source's scrape as a pure specification: page setup, then the try
 * block (navigate, best-effort consent, readiness wait, extraction) whose
 * failures all become an empty list, then closing the page in `finally`.
 * The class in module Scraper performs these steps one by one and is proved
 * to agree with `ScrapeRun`.
 */
module Pipeline {

  import opened Wrappers
  import opened Extraction
  import opened Adapters
  import opened Renderer

  /** The calls of a fully successful page setup. */
  const SetupCalls: seq<Call> := [NewPage, SetUserAgent, SetViewport, SetRequestInterception]

  /**
   * The calls setup made, whether a page was created, and whether setup
   * resolved with a configured page.
   */
  datatype SetupRun = SetupRun(calls: seq<Call>, created: bool, ready: bool)

  /**
   * Page acquisition: `newPage` (which rejects on a disconnected browser),
   * then user agent, viewport and request interception, stopping at the
   * first call that rejects.
   */
  function Setup(connected: bool, p: PageScript): (s: SetupRun)
    ensures s.calls != [] && s.calls <= SetupCalls
    ensures s.created <==> connected && p.newPage
    ensures s.ready <==> s.created && p.setUserAgent && p.setViewport && p.setRequestInterception
    ensures s.ready ==> s.calls == SetupCalls
  {
    if !(connected && p.newPage) then SetupRun([NewPage], false, false)
    else if !p.setUserAgent then SetupRun(SetupCalls[..2], true, false)
    else if !p.setViewport then SetupRun(SetupCalls[..3], true, false)
    else if !p.setRequestInterception then SetupRun(SetupCalls, true, false)
    else SetupRun(SetupCalls, true, true)
  }

  /** The calls the try block made and the list it returns (its catch returns `[]`). */
  datatype TryRun = TryRun(calls: seq<Call>, products: seq<Item>)

  function ConsentCalls(a: Adapter, p: PageScript): seq<Call> {
    [WaitForSelector(a.consentSelector, ConsentTimeoutMs)]
      + (if p.waitForSelector(a.consentSelector) then [Click(a.consentSelector)] else [])
  }

  function TryBlock(a: Adapter, p: PageScript, url: string, parseFloat: string -> Number): TryRun {
    var nav := Goto(url, NavigationTimeoutMs);
    if !p.goto(url) then TryRun([nav], [])
    else
      var wait := WaitForSelector(a.readySelector, ReadyTimeoutMs);
      var before := [nav] + ConsentCalls(a, p) + [wait];
      if !p.waitForSelector(a.readySelector) then TryRun(before, [])
      else
        match p.evaluate(a.itemSelector)
        case None => TryRun(before + [Evaluate(a.itemSelector)], [])
        case Some(nodes) => TryRun(before + [Evaluate(a.itemSelector)], Extract(a.fields, parseFloat, nodes))
  }

  /** A whole scrape: its calls, how its promise settles, and whether its page stays open. */
  datatype Run = Run(calls: seq<Call>, outcome: Settled<seq<Item>>, pageLeftOpen: bool)

  /**
   * Setup happens before the `try`, so a setup call that rejects makes the
   * scrape reject, leaving open the page it may already have created. Once
   * inside, the page is closed on every path; a `close` that rejects makes
   * the scrape reject even though the try block returned a list.
   */
  function ScrapeRun(a: Adapter, query: string, connected: bool, p: PageScript, env: Env): Run {
    var s := Setup(connected, p);
    if !s.ready then Run(s.calls, Rejected(PageSetupFailed), s.created)
    else
      var t := TryBlock(a, p, TargetUrl(a, env.encodeURIComponent, query), env.parseFloat);
      Run(s.calls + t.calls + [ClosePage],
          if p.close then Fulfilled(t.products) else Rejected(PageCloseFailed),
          false)
  }

  /** A scrape rejects exactly when page setup or page close rejects. */
  lemma RejectsOnlyOutsideTry(a: Adapter, query: string, connected: bool, p: PageScript, env: Env)
    ensures ScrapeRun(a, query, connected, p, env).outcome.Rejected? <==>
      !Setup(connected, p).ready || !p.close
  {
  }

  /**
   * When navigation, the readiness wait or extraction rejects, the scrape
   * resolves to the empty list; otherwise to what extraction returned.
   */
  lemma TryFailuresYieldEmpty(a: Adapter, query: string, connected: bool, p: PageScript, env: Env)
    requires Setup(connected, p).ready && p.close
    ensures var url := TargetUrl(a, env.encodeURIComponent, query);
      var outcome := ScrapeRun(a, query, connected, p, env).outcome;
      && (!p.goto(url) || !p.waitForSelector(a.readySelector) || p.evaluate(a.itemSelector).None?
          ==> outcome == Fulfilled([]))
      && (p.goto(url) && p.waitForSelector(a.readySelector) && p.evaluate(a.itemSelector).Some?
          ==> outcome == Fulfilled(Extract(a.fields, env.parseFloat, p.evaluate(a.itemSelector).value)))
  {
  }

  /**
   * Page accounting: a page stays open exactly when it was created and a
   * later setup call rejected; once setup resolved the run ends with a single
   * `close`, made on every path.
   */
  lemma PageReleased(a: Adapter, query: string, connected: bool, p: PageScript, env: Env)
    ensures var run := ScrapeRun(a, query, connected, p, env);
      var s := Setup(connected, p);
      && (run.pageLeftOpen <==> s.created && !s.ready)
      && (run.pageLeftOpen ==> run.outcome == Rejected(PageSetupFailed))
      && (s.ready ==> run.calls[|run.calls| - 1] == ClosePage && multiset(run.calls)[ClosePage] == 1)
      && (!s.ready ==> ClosePage !in run.calls)
  {
    var run := ScrapeRun(a, query, connected, p, env);
    var s := Setup(connected, p);
    assert ClosePage !in SetupCalls;
    if s.ready {
      var t := TryBlock(a, p, TargetUrl(a, env.encodeURIComponent, query), env.parseFloat);
      assert ClosePage !in t.calls;
      assert multiset(run.calls) == multiset(s.calls) + multiset(t.calls) + multiset{ClosePage};
    }
  }

  /** `p` with the consent button appearing, or not, as `appears` says. */
  function WithConsent(p: PageScript, consentSelector: string, appears: bool): PageScript {
    p.(waitForSelector := sel => if sel == consentSelector then appears else p.waitForSelector(sel))
  }

  /**
   * The consent banner is best effort: whether its button appears never
   * changes how the scrape settles, and once navigation resolved the
   * readiness wait is always made.
   */
  lemma ConsentIsBestEffort(a: Adapter, query: string, connected: bool, p: PageScript, env: Env)
    requires a.consentSelector != a.readySelector
    ensures ScrapeRun(a, query, connected, p, env).outcome
      == ScrapeRun(a, query, connected, WithConsent(p, a.consentSelector, false), env).outcome
    ensures Setup(connected, p).ready && p.goto(TargetUrl(a, env.encodeURIComponent, query))
      ==> WaitForSelector(a.readySelector, ReadyTimeoutMs) in ScrapeRun(a, query, connected, p, env).calls
  {
    var q := WithConsent(p, a.consentSelector, false);
    assert q.waitForSelector(a.readySelector) == p.waitForSelector(a.readySelector);
  }

  /** The try block's calls when every step resolves, with or without a consent click. */
  function FullTryCalls(a: Adapter, url: string, clicked: bool): seq<Call> {
    [Goto(url, NavigationTimeoutMs), WaitForSelector(a.consentSelector, ConsentTimeoutMs)]
      + (if clicked then [Click(a.consentSelector)] else [])
      + [WaitForSelector(a.readySelector, ReadyTimeoutMs), Evaluate(a.itemSelector)]
  }

  /**
   * The steps run strictly in order: setup, then a prefix of navigate,
   * consent, readiness wait and extraction, then close, with the source's
   * own URL, selectors and timeouts.
   */
  lemma StepsInOrder(a: Adapter, query: string, connected: bool, p: PageScript, env: Env)
    ensures var run := ScrapeRun(a, query, connected, p, env);
      var url := TargetUrl(a, env.encodeURIComponent, query);
      if Setup(connected, p).ready then
        && run.calls[..4] == SetupCalls
        && run.calls[|run.calls| - 1] == ClosePage
        && var body := run.calls[4..|run.calls| - 1];
           body != [] && (body <= FullTryCalls(a, url, true) || body <= FullTryCalls(a, url, false))
      else run.calls <= SetupCalls
  {
    var run := ScrapeRun(a, query, connected, p, env);
    var url := TargetUrl(a, env.encodeURIComponent, query);
    if Setup(connected, p).ready {
      var t := TryBlock(a, p, url, env.parseFloat);
      assert run.calls == SetupCalls + t.calls + [ClosePage];
      assert run.calls[4..|run.calls| - 1] == t.calls;
      var clicked := p.waitForSelector(a.consentSelector);
      if p.goto(url) {
        assert ConsentCalls(a, p) == FullTryCalls(a, url, clicked)[1..|ConsentCalls(a, p)| + 1];
        assert t.calls <= FullTryCalls(a, url, clicked);
      }
    }
  }
}
