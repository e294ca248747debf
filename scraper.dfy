/**
 * The scraper object: it owns the browser handle, creates one page per
 * source, runs the source's pipeline step by step and assembles the four
 * results. Ghost state counts launched browsers and pages left open, and
 * records every page call in order.
 */
module Scraper {

  import opened Extraction
  import opened Adapters
  import opened Renderer
  import opened Pipeline
  import opened Aggregate

  lemma AppendFour<T>(s: seq<T>, a: seq<T>, b: seq<T>, c: seq<T>, d: seq<T>)
    ensures s + a + b + c + d == s + (a + b + c + d)
  {
  }

  lemma AppendThree<T>(s: seq<T>, a: seq<T>, b: seq<T>, c: seq<T>)
    ensures s + a + b + c == s + (a + b + c)
  {
  }

  /** A launched browser. It accepts new pages only while connected. */
  class Browser {
    var connected: bool

    constructor ()
      ensures connected
    {
      connected := true;
    }

    /** `browser.close()`; when it resolves, the browser is disconnected. */
    method Close(resolves: bool) returns (r: Settled<()>)
      modifies this
      ensures r == (if resolves then Fulfilled(()) else Rejected(BrowserCloseFailed))
      ensures connected == (old(connected) && !resolves)
    {
      if resolves {
        connected := false;
        r := Fulfilled(());
      } else {
        r := Rejected(BrowserCloseFailed);
      }
    }
  }

  class SupermarketScraper {
    var browser: Browser?
    ghost var launches: nat
    ghost var openPages: nat
    ghost var calls: seq<Call>

    /** Whether `this.browser.newPage()` can resolve: a browser is stored and still connected. */
    predicate HasLiveBrowser()
      reads this`browser, browser
    {
      browser != null && browser.connected
    }

    constructor ()
      ensures browser == null && launches == 0 && openPages == 0 && calls == []
    {
      browser := null;
      launches, openPages, calls := 0, 0, [];
    }

    /**
     * Launches a browser and stores it, whatever the field held: a browser
     * already stored is replaced, not closed, and stays connected. When the
     * launch rejects the field keeps its value.
     */
    method Initialize(env: Env) returns (r: Settled<()>)
      modifies this
      ensures env.launch ==>
        r == Fulfilled(()) && browser != null && fresh(browser) && browser.connected && launches == old(launches) + 1
      ensures !env.launch ==> r == Rejected(LaunchFailed) && browser == old(browser) && launches == old(launches)
      ensures old(browser) != null ==> old(browser).connected == old(browser.connected)
      ensures openPages == old(openPages) && calls == old(calls)
    {
      if !env.launch {
        return Rejected(LaunchFailed);
      }
      browser := new Browser();
      launches := launches + 1;
      r := Fulfilled(());
    }

    /** Closes the stored browser if there is one; the field is never cleared. */
    method Close(env: Env) returns (r: Settled<()>)
      modifies browser
      ensures browser == old(browser)
      ensures browser == null ==> r == Fulfilled(())
      ensures browser != null ==>
        && r == (if env.closeBrowser then Fulfilled(()) else Rejected(BrowserCloseFailed))
        && browser.connected == (old(browser.connected) && !env.closeBrowser)
    {
      if browser != null {
        r := browser.Close(env.closeBrowser);
      } else {
        r := Fulfilled(());
      }
    }

    /**
     * Creates and configures a page; `ready` is false when a step rejected.
     * With no browser stored, `this.browser.newPage()` throws, which counts
     * as a page creation that rejects.
     */
    method SetupPage(p: PageScript) returns (ready: bool)
      modifies this`openPages, this`calls
      ensures var s := Setup(HasLiveBrowser(), p);
        && ready == s.ready
        && calls == old(calls) + s.calls
        && openPages == old(openPages) + (if s.created then 1 else 0)
    {
      calls := calls + [NewPage];
      if !(browser != null && browser.connected && p.newPage) {
        return false;
      }
      openPages := openPages + 1;
      calls := calls + [SetUserAgent];
      if !p.setUserAgent {
        return false;
      }
      calls := calls + [SetViewport];
      if !p.setViewport {
        return false;
      }
      calls := calls + [SetRequestInterception];
      if !p.setRequestInterception {
        return false;
      }
      ready := true;
    }

    /**
     * The body of the `try`: navigate, dismiss the consent banner if it
     * appears, wait for the product list, extract. A step that rejects ends
     * the block with the empty list that `catch` returns.
     */
    method TryBlockSteps(a: Adapter, url: string, p: PageScript, parseFloat: string -> Number)
      returns (products: seq<Item>)
      modifies this`calls
      ensures var t := TryBlock(a, p, url, parseFloat);
        products == t.products && calls == old(calls) + t.calls
    {
      products := [];
      ghost var steps := [Goto(url, NavigationTimeoutMs)];
      if p.goto(url) {
        steps := steps + [WaitForSelector(a.consentSelector, ConsentTimeoutMs)];
        if p.waitForSelector(a.consentSelector) {
          steps := steps + [Click(a.consentSelector)];
        }
        steps := steps + [WaitForSelector(a.readySelector, ReadyTimeoutMs)];
        if p.waitForSelector(a.readySelector) {
          steps := steps + [Evaluate(a.itemSelector)];
          var nodes := p.evaluate(a.itemSelector);
          if nodes.Some? {
            products := Extract(a.fields, parseFloat, nodes.value);
          }
        }
      }
      calls := calls + steps;
    }

    /**
     * One source's scrape on its own page, made of the adapter's constants:
     * it settles as `ScrapeRun` says, makes its calls, and changes the count
     * of open pages only by a page whose setup failed after creation.
     */
    method Scrape(a: Adapter, query: string, p: PageScript, env: Env) returns (outcome: Settled<seq<Item>>)
      modifies this`openPages, this`calls
      ensures var run := ScrapeRun(a, query, HasLiveBrowser(), p, env);
        && outcome == run.outcome
        && calls == old(calls) + run.calls
        && openPages == old(openPages) + (if run.pageLeftOpen then 1 else 0)
    {
      ghost var calls0 := calls;
      var ready := SetupPage(p);
      if !ready {
        return Rejected(PageSetupFailed);
      }
      ghost var setupCalls := calls[|calls0|..];
      assert calls == calls0 + setupCalls;
      var url := TargetUrl(a, env.encodeURIComponent, query);
      var products := TryBlockSteps(a, url, p, env.parseFloat);
      // finally
      calls := calls + [ClosePage];
      AppendThree(calls0, setupCalls, TryBlock(a, p, url, env.parseFloat).calls, [ClosePage]);
      openPages := openPages - 1;
      outcome := if p.close then Fulfilled(products) else Rejected(PageCloseFailed);
    }

    /** One source's scrape with that source's adapter and page. */
    method ScrapeSource(s: Source, query: string, env: Env) returns (outcome: Settled<seq<Item>>)
      modifies this`openPages, this`calls
      ensures outcome == SourceRun(s, query, HasLiveBrowser(), env).outcome
      ensures calls == old(calls) + SourceRun(s, query, HasLiveBrowser(), env).calls
      ensures openPages == old(openPages) + LeftOpen(s, query, HasLiveBrowser(), env)
    {
      outcome := Scrape(AdapterFor(s), query, env.pages(s), env);
    }

    /**
     * The four scrapes, in call order, each on its own page of the stored
     * browser; `Promise.allSettled` collects how each settled.
     */
    method ScrapeAll(query: string, env: Env) returns (outcomes: seq<Settled<seq<Item>>>)
      modifies this`openPages, this`calls
      ensures outcomes == Outcomes(query, HasLiveBrowser(), env)
      ensures calls == old(calls) + SearchCalls(query, HasLiveBrowser(), env)
      ensures openPages == old(openPages) + LeakedPages(query, HasLiveBrowser(), env)
    {
      ghost var connected, calls0, open0 := HasLiveBrowser(), calls, openPages;
      var rewe := ScrapeSource(Rewe, query, env);
      var lidl := ScrapeSource(Lidl, query, env);
      var aldi := ScrapeSource(Aldi, query, env);
      var penny := ScrapeSource(Penny, query, env);
      ghost var c1, c2 := SourceRun(Rewe, query, connected, env).calls, SourceRun(Lidl, query, connected, env).calls;
      ghost var c3, c4 := SourceRun(Aldi, query, connected, env).calls, SourceRun(Penny, query, connected, env).calls;
      assert calls == calls0 + c1 + c2 + c3 + c4;
      AppendFour(calls0, c1, c2, c3, c4);
      outcomes := [rewe, lidl, aldi, penny];
    }

    /**
     * Launches a browser only when none is stored, then scrapes the four
     * sources in call order with the stored browser and assembles their
     * settled results. A launch that rejects makes the search reject.
     */
    method SearchAllSupermarkets(query: string, env: Env) returns (r: Settled<map<string, seq<Item>>>)
      modifies this
      ensures old(browser) == null && !env.launch ==>
        r == Rejected(LaunchFailed) && browser == null && launches == old(launches)
        && calls == old(calls) && openPages == old(openPages)
      ensures old(browser) != null ==> browser == old(browser) && launches == old(launches)
      ensures old(browser) == null && env.launch ==>
        && browser != null && fresh(browser) && browser.connected && launches == old(launches) + 1
        && r == Fulfilled(SearchResult(query, true, env))
      ensures old(browser) != null || env.launch ==>
        && browser != null
        && r == Fulfilled(SearchResult(query, browser.connected, env))
        && calls == old(calls) + SearchCalls(query, browser.connected, env)
        && openPages == old(openPages) + LeakedPages(query, browser.connected, env)
    {
      if browser == null {
        var started := Initialize(env);
        if started.Rejected? {
          return Rejected(started.reason);
        }
      }
      var outcomes := ScrapeAll(query, env);
      r := Fulfilled(Assemble(outcomes));
    }
  }
}
