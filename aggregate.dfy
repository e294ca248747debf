/**
 * How the four settled scrapes become the response object: one key per
 * source, its list when the scrape fulfilled and `[]` when it rejected.
 */
module Aggregate {

  import opened Extraction
  import opened Adapters
  import opened Renderer
  import opened Pipeline

  const ResultKeys: set<string> := {"rewe", "lidl", "aldi", "penny"}

  /** `results[i].status === 'fulfilled' ? results[i].value : []` */
  function ValueOr(o: Settled<seq<Item>>): seq<Item> {
    if o.Fulfilled? then o.value else []
  }

  /** The object literal built from `Promise.allSettled`'s four results. */
  function Assemble(results: seq<Settled<seq<Item>>>): (r: map<string, seq<Item>>)
    requires |results| == |CallOrder|
    ensures r.Keys == ResultKeys
    ensures forall i :: 0 <= i < |CallOrder| ==> r[KeyOf(CallOrder[i])] == ValueOr(results[i])
  {
    map[
      "rewe" := ValueOr(results[0]),
      "lidl" := ValueOr(results[1]),
      "aldi" := ValueOr(results[2]),
      "penny" := ValueOr(results[3])]
  }

  function SourceRun(s: Source, query: string, connected: bool, env: Env): Run {
    ScrapeRun(AdapterFor(s), query, connected, env.pages(s), env)
  }

  /** The four scrape outcomes, in call order. */
  function Outcomes(query: string, connected: bool, env: Env): (r: seq<Settled<seq<Item>>>)
    ensures |r| == |CallOrder|
    ensures forall i :: 0 <= i < |CallOrder| ==> r[i] == SourceRun(CallOrder[i], query, connected, env).outcome
  {
    [SourceRun(Rewe, query, connected, env).outcome, SourceRun(Lidl, query, connected, env).outcome,
     SourceRun(Aldi, query, connected, env).outcome, SourceRun(Penny, query, connected, env).outcome]
  }

  /**
   * The search result: exactly the four keys, and under each source's key
   * the list its own scrape fulfilled with, or `[]` if it rejected. A key
   * depends on nothing but that source's page.
   */
  function SearchResult(query: string, connected: bool, env: Env): (r: map<string, seq<Item>>)
    ensures r.Keys == ResultKeys
    ensures forall s: Source :: r[KeyOf(s)] == ValueOr(SourceRun(s, query, connected, env).outcome)
  {
    var outcomes := Outcomes(query, connected, env);
    var r := Assemble(outcomes);
    assert forall s: Source :: r[KeyOf(s)] == ValueOr(SourceRun(s, query, connected, env).outcome) by {
      forall s: Source
        ensures r[KeyOf(s)] == ValueOr(SourceRun(s, query, connected, env).outcome)
      {
        var i := IndexInCallOrder(s);
        assert r[KeyOf(CallOrder[i])] == ValueOr(outcomes[i]);
      }
    }
    r
  }

  function IndexInCallOrder(s: Source): (i: nat)
    ensures i < |CallOrder| && CallOrder[i] == s
  {
    match s
    case Rewe => 0
    case Lidl => 1
    case Aldi => 2
    case Penny => 3
  }

  /** All the page calls of one search, the sources' calls one after the other. */
  function SearchCalls(query: string, connected: bool, env: Env): seq<Call> {
    SourceRun(Rewe, query, connected, env).calls + SourceRun(Lidl, query, connected, env).calls
      + SourceRun(Aldi, query, connected, env).calls + SourceRun(Penny, query, connected, env).calls
  }

  function LeftOpen(s: Source, query: string, connected: bool, env: Env): nat {
    if SourceRun(s, query, connected, env).pageLeftOpen then 1 else 0
  }

  /** The pages one search leaves open. */
  function LeakedPages(query: string, connected: bool, env: Env): nat {
    LeftOpen(Rewe, query, connected, env) + LeftOpen(Lidl, query, connected, env)
      + LeftOpen(Aldi, query, connected, env) + LeftOpen(Penny, query, connected, env)
  }

  /**
   * A search leaks a page only for a source whose page was created and then
   * failed to configure; when every page sets up (or none can be created),
   * no page is left open.
   */
  lemma NoLeakWhenSetupHolds(query: string, connected: bool, env: Env)
    ensures LeakedPages(query, connected, env) <= 4
    ensures (forall s: Source :: var sr := Setup(connected, env.pages(s)); sr.created ==> sr.ready)
      ==> LeakedPages(query, connected, env) == 0
  {
    forall s: Source
      ensures SourceRun(s, query, connected, env).pageLeftOpen <==>
        Setup(connected, env.pages(s)).created && !Setup(connected, env.pages(s)).ready
    {
      PageReleased(AdapterFor(s), query, connected, env.pages(s), env);
    }
  }

  /**
   * A browser that has been closed (the field still holds it, so no new one
   * is launched) makes every page creation reject: every key is empty and no
   * page is created.
   */
  lemma ClosedBrowserYieldsEmptyLists(query: string, env: Env)
    ensures forall s: Source :: SearchResult(query, false, env)[KeyOf(s)] == []
    ensures LeakedPages(query, false, env) == 0
    ensures SearchCalls(query, false, env) == [NewPage, NewPage, NewPage, NewPage]
  {
  }

  /** The environment with the page of `changed` replaced by `q`. */
  function WithPage(env: Env, changed: Source, q: PageScript): Env {
    env.(pages := t => if t == changed then q else env.pages(t))
  }

  /**
   * The scrapes do not interfere: whatever the page of one source does, the
   * keys of all the other sources stay as they were.
   */
  lemma OtherKeysIndependent(query: string, connected: bool, env: Env, changed: Source, q: PageScript)
    ensures forall s: Source :: s != changed ==>
      SearchResult(query, connected, WithPage(env, changed, q))[KeyOf(s)]
        == SearchResult(query, connected, env)[KeyOf(s)]
  {
    forall s: Source | s != changed
      ensures SearchResult(query, connected, WithPage(env, changed, q))[KeyOf(s)]
        == SearchResult(query, connected, env)[KeyOf(s)]
    {
      assert WithPage(env, changed, q).pages(s) == env.pages(s);
    }
  }

  /**
   * Failure isolation: a source whose readiness wait rejects contributes
   * `[]`, and a failing page leaves every other key as a working one would.
   */
  lemma ReadinessFailureIsolated(query: string, connected: bool, env: Env, failed: Source, working: PageScript)
    requires !env.pages(failed).waitForSelector(AdapterFor(failed).readySelector)
    ensures SearchResult(query, connected, env)[KeyOf(failed)] == []
    ensures forall s: Source :: s != failed ==>
      SearchResult(query, connected, env)[KeyOf(s)]
        == SearchResult(query, connected, WithPage(env, failed, working))[KeyOf(s)]
  {
    var p := env.pages(failed);
    if Setup(connected, p).ready && p.close {
      TryFailuresYieldEmpty(AdapterFor(failed), query, connected, p, env);
    }
    OtherKeysIndependent(query, connected, env, failed, working);
  }
}
