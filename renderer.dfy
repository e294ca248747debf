/**
 * The headless browser, reduced to what the scraper observes of it: every
 * awaited call either resolves or rejects, and the page function yields the
 * item nodes of the rendered document or rejects.
 */
module Renderer {

  import opened Wrappers
  import opened Extraction
  import opened Adapters

  /** What the request handler does with one intercepted request. */
  datatype Decision = Abort | Continue

  /** The resource types the handler aborts. */
  const BlockedResourceTypes: set<string> := {"image", "stylesheet", "font"}

  /**
   * The request handler installed by page setup: each request gets exactly
   * one decision, abort precisely for images, stylesheets and fonts.
   */
  function InterceptRequest(resourceType: string): (d: Decision)
    ensures d == Abort <==> resourceType in BlockedResourceTypes
  {
    if resourceType in ["image", "stylesheet", "font"] then Abort else Continue
  }

  /** The page document, scripts and data requests are never blocked. */
  lemma InterceptLetsPagesThrough()
    ensures InterceptRequest("document") == Continue
    ensures InterceptRequest("script") == Continue
    ensures InterceptRequest("xhr") == Continue
    ensures InterceptRequest("fetch") == Continue
  {
  }

  /**
   * How one page behaves: whether each setup call resolves, whether `goto`
   * of a URL and `waitForSelector` of a selector resolve, what `evaluate`
   * yields for the item selector (`None` when it rejects), and whether
   * `close` resolves. Clicking the consent button is left out: its outcome
   * never changes what the scraper does next.
   */
  datatype PageScript = PageScript(
    newPage: bool,
    setUserAgent: bool,
    setViewport: bool,
    setRequestInterception: bool,
    goto: string -> bool,
    waitForSelector: string -> bool,
    evaluate: string -> Option<seq<ItemNode>>,
    close: bool)

  /**
   * The rest of the outside world: whether launching and closing the browser
   * resolve, URL encoding, number parsing, and the page each source gets.
   */
  datatype Env = Env(
    launch: bool,
    closeBrowser: bool,
    encodeURIComponent: string -> string,
    parseFloat: string -> Number,
    pages: Source -> PageScript)

  /** The calls the scraper makes on a page, with their arguments. */
  datatype Call =
    | NewPage
    | SetUserAgent
    | SetViewport
    | SetRequestInterception
    | Goto(url: string, timeoutMs: nat)
    | WaitForSelector(selector: string, timeoutMs: nat)
    | Click(selector: string)
    | Evaluate(itemSelector: string)
    | ClosePage

  /** Why a scraper promise rejects. */
  datatype Failure = LaunchFailed | PageSetupFailed | PageCloseFailed | BrowserCloseFailed

  /** A settled promise, as `Promise.allSettled` reports it. */
  datatype Settled<+T> = Fulfilled(value: T) | Rejected(reason: Failure)
}
