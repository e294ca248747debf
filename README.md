# Supermarket scraper, modelled in Dafny

This project models `SupermarketScraper`, the class in `services/scrapers.js` that searches four
German supermarket web shops (REWE, Lidl, Aldi Süd, Penny) for a query. It drives a headless
browser for this. For each shop it opens a page, blocks images, stylesheets and fonts, and loads
the shop's search URL. It then dismisses the cookie banner if there is one, waits for the product
list and extracts `{name, price, image, unit}` records. A failure becomes an empty list. The four
lists are returned under the fixed keys `rewe`, `lidl`, `aldi` and `penny`.

The browser is abstract: every awaited call either resolves or rejects (`Renderer.PageScript`,
`Renderer.Env`). The following is modelled step by step, within the string model described under
"Left out":

- the string steps of price normalisation;
- the `name && price` filter;
- the request-blocking predicate;
- the try/catch/finally control flow of one scrape;
- the aggregation of `Promise.allSettled` results;
- the life cycle of the `browser` field.

Modules, leaves first:

- `Wrappers` (wrappers.dfy): `Option` for JavaScript's `undefined`.
- `Text` (text.dfy): `trim`, the first-occurrence `replace`, and the price-text normalisation.
- `Extraction` (extraction.dfy): the page function. It covers JavaScript truthiness of numbers,
  reading the four fields of an item node, and the filter.
- `Adapters` (adapters.dfy): the four shops' constants as one `Adapter` record each. These are
  the URL prefix, the consent button, the readiness/item selector and the field sub-selectors.
  The four `scrape*` methods are copies of one pipeline, so the model has one generic pipeline.
- `Renderer` (renderer.dfy): the browser abstraction and the request-interception handler.
- `Pipeline` (pipeline.dfy): `ScrapeRun`, a pure specification of one scrape. It gives the
  calls made, how the promise settles, and whether the page stays open.
- `Aggregate` (aggregate.dfy): the result object and the whole search as functions.
- `Scraper` (scraper.dfy): the class `SupermarketScraper`, with its `browser` field and the
  methods that perform the steps one by one. Its ghost state covers:
  - the number of launched browsers;
  - the number of pages left open;
  - the sequence of page calls.

  Each method is proved to agree with the specification functions.

The model follows the code as written, including behaviour that is easy to miss:

- `initialize` is not idempotent. Each call launches a new browser and overwrites the field
  without closing the old one (`Scraper.SupermarketScraper.Initialize`).
- `close` never clears the field. A later search therefore does not relaunch, every page creation
  on the closed browser rejects, and every key is empty (`Aggregate.ClosedBrowserYieldsEmptyLists`).
- A search rejects when the lazy launch rejects. It does not always resolve.
- Price text loses only the first `€`, and only the first `,` becomes `.`. Thousands separators
  are not stripped (`Text.NormaliseSecondComma`). An infinite price is truthy, so the filter inside the page keeps it.
- Page setup runs before the `try`. A rejecting `setUserAgent`, `setViewport` or
  `setRequestInterception` therefore leaves the new page open and makes the scrape reject
  (`Pipeline.PageReleased`). Only inside the `try` is the page closed on every path.
- A rejecting `page.close()` in `finally` makes the scrape reject even when the list was
  extracted. The aggregate then shows `[]` for that shop.

## Model

| member | source | states |
|---|---|---|
| `Text.IsJsWhitespace` | services/scrapers.js:68 | the WhiteSpace and LineTerminator code points of JavaScript, the set `trim` removes at both ends; its properties are stated by `Trim` |
| `Text.Trim` | services/scrapers.js:68 | the result lies right after the leading whitespace and only whitespace follows it; it is empty iff the text is all whitespace, and otherwise starts and ends with a non-whitespace character |
| `Text.TrimIdempotent` | services/scrapers.js:73 | trimming an already trimmed string changes nothing |
| `Text.IndexOf` | services/scrapers.js:71 | the index of the first occurrence of a character, or the length when there is none |
| `Text.ReplaceFirst` | services/scrapers.js:71-72 | `replace` with a one-character pattern: unchanged without an occurrence; otherwise exactly the first occurrence is replaced and the rest is kept |
| `Text.ReplaceFirstMultiset` | services/scrapers.js:71-72 | the replacement removes exactly one occurrence of the character and adds the replacement's characters |
| `Text.ReplaceFirstAt` | services/scrapers.js:71 | at a known first occurrence, replace is the splice around that index |
| `Text.NormalisePrice` | services/scrapers.js:70-73 | the price text trimmed after its first `€` is removed and its first `,` turned into `.`; its properties are stated by `NormaliseRemovesOneEuro`, `NormaliseWithoutSymbols` and the three examples |
| `Text.NormaliseWithoutSymbols` | services/scrapers.js:69-74 | price text with no `€` and no `,` is only trimmed |
| `Text.NormaliseRemovesOneEuro` | services/scrapers.js:69-74 | with k euro signs in the price text, exactly k-1 of them are in the string handed to `parseFloat` (none when k is 0) |
| `Text.TrimKeepsCount` | services/scrapers.js:73 | `trim` removes only whitespace, so every non-whitespace character keeps its count |
| `Text.NormaliseTrailingEuro` | services/scrapers.js:69-74 | `"2,49 €"` is handed to `parseFloat` as `"2.49"` |
| `Text.NormaliseLeadingEuro` | services/scrapers.js:69-74 | `"€ 10,00"` is handed to `parseFloat` as `"10.00"` |
| `Text.NormaliseSecondComma` | services/scrapers.js:72 | a second comma is left in place: `"1,234,56"` becomes `"1.234,56"` |
| `Text.TrimUnchanged` | services/scrapers.js:73 | a string with no whitespace at either end is its own trim |
| `Extraction.Truthy` | services/scrapers.js:77 | JavaScript truthiness of a number: neither NaN nor zero, so infinities are truthy; used by `Keep` |
| `Extraction.Keep` | services/scrapers.js:77 | the filter's `item.name && item.price`: a defined non-empty name and a truthy price; characterised on item nodes by `KeepIff` |
| `Extraction.ReadItem` | services/scrapers.js:67-76 | the record built from one node: trimmed name and unit text, `src` of the image, and `parseFloat` of the normalised price text, NaN when there is no price element; its use is stated by `ExtractSelectsNodes` and `KeepIff` |
| `Extraction.Filter` | services/scrapers.js:77 | every record the filter returns passes `name && price`, and there are no more of them than inputs |
| `Extraction.Extract` | services/scrapers.js:65-78 | every record the page function returns has a non-empty name and a truthy price |
| `Extraction.FilterSelectsKept` | services/scrapers.js:77 | the filter output is the subsequence of its input at strictly increasing positions, and those are exactly the positions whose record passes |
| `Extraction.KeptPositionsPointAtFiltered` | services/scrapers.js:77 | each kept position points at the record the filter returned in that place |
| `Extraction.KeptPositionsIncrease` | services/scrapers.js:77 | kept positions are in bounds and strictly increasing |
| `Extraction.KeptPositionsExact` | services/scrapers.js:77 | a position is kept iff its record passes the filter |
| `Extraction.ExtractSelectsNodes` | services/scrapers.js:66-77 | the output lists, in document order, the records of exactly the nodes that pass, each built from that one node's name, price, image and unit |
| `Extraction.FilterAppend` | services/scrapers.js:77 | nodes are filtered independently: filtering a concatenation concatenates the results |
| `Extraction.KeepIff` | services/scrapers.js:68-77 | a node is kept iff it has a name element whose text is not all whitespace and a price element whose normalised text parses to a truthy number |
| `Extraction.DroppedCandidates` | services/scrapers.js:68-77 | a whitespace-only name, a missing price element, or a price that parses to NaN or zero drops the candidate |
| `Extraction.ReadAll` | services/scrapers.js:66-67 | one record per item node, in document order |
| `Adapters.KeyOf` | services/scrapers.js:234-237 | the result key of each shop: rewe, lidl, aldi, penny; their distinctness is `KeysDistinct` |
| `Adapters.AdapterFor` | services/scrapers.js:45-219 | each shop's adapter waits for the same selector it enumerates, and its consent button is a different selector |
| `Adapters.TargetUrl` | services/scrapers.js:48 | the URL is the shop's prefix followed by the encoded query, nothing else |
| `Adapters.TargetUrlsDistinct` | services/scrapers.js:48 | for one query, two different shops are never sent to the same URL |
| `Adapters.KeysDistinct` | services/scrapers.js:233-238 | the four result keys are pairwise distinct |
| `Adapters.CallOrderCoversSources` | services/scrapers.js:226-231 | the call order lists each of the four shops exactly once |
| `Renderer.InterceptRequest` | services/scrapers.js:34-40 | every intercepted request gets exactly one decision, and it is abort iff its resource type is image, stylesheet or font |
| `Renderer.InterceptLetsPagesThrough` | services/scrapers.js:34-40 | documents, scripts, xhr and fetch requests continue |
| `Pipeline.Setup` | services/scrapers.js:28-32 | a page is created iff the browser is live and `newPage` resolves; setup succeeds iff all three configuration calls also resolve; the calls made are a non-empty prefix of the four setup calls, all four when setup succeeds |
| `Pipeline.TryBlock` | services/scrapers.js:47-83 | the try block: navigate, wait for the consent button and click it if it appears, wait for the product list, evaluate; the first rejecting step ends it with `[]`; stated by `TryFailuresYieldEmpty` and `StepsInOrder`, and performed by `SupermarketScraper.TryBlockSteps` |
| `Pipeline.ScrapeRun` | services/scrapers.js:45-87 | one shop's scrape: setup outside the try, the try block, and `page.close()` in finally, giving the calls, the settled outcome and whether the page stays open; stated by `RejectsOnlyOutsideTry`, `TryFailuresYieldEmpty`, `PageReleased`, `ConsentIsBestEffort` and `StepsInOrder`, and performed by `SupermarketScraper.Scrape` |
| `Pipeline.RejectsOnlyOutsideTry` | services/scrapers.js:45-86 | a scrape rejects exactly when page setup (outside the try) or page close (in finally) rejects |
| `Pipeline.TryFailuresYieldEmpty` | services/scrapers.js:47-83 | when navigation, the readiness wait or extraction rejects, the scrape resolves to `[]`; otherwise to the extracted records |
| `Pipeline.PageReleased` | services/scrapers.js:84-86 | a page stays open iff it was created and its configuration failed; after a successful setup the run ends with exactly one close |
| `Pipeline.ConsentIsBestEffort` | services/scrapers.js:53-59 | with the page's other answers unchanged, whether the consent button appears never changes how a scrape settles, and after navigation the readiness wait is always made |
| `Pipeline.StepsInOrder` | services/scrapers.js:45-86 | the calls are setup, then a prefix of navigate, consent, readiness wait and extract, then close, with the shop's URL, selectors and timeouts |
| `Aggregate.Assemble` | services/scrapers.js:233-238 | exactly the keys rewe, lidl, aldi and penny; the i-th key in call order holds the i-th result's value if fulfilled and `[]` if rejected |
| `Aggregate.ValueOr` | services/scrapers.js:234-237 | `status === 'fulfilled' ? value : []` for one settled result; used by `Assemble` and `SearchResult` |
| `Aggregate.Outcomes` | services/scrapers.js:226-231 | the i-th settled result belongs to the i-th shop in the fixed call order |
| `Aggregate.SearchResult` | services/scrapers.js:226-238 | exactly the four keys; each key holds its own shop's scrape value or `[]`, depending on no other shop's page |
| `Aggregate.NoLeakWhenSetupHolds` | services/scrapers.js:28-47 | a search leaves at most four pages open, and none when every created page is configured |
| `Aggregate.ClosedBrowserYieldsEmptyLists` | services/scrapers.js:22-29 | with a closed browser still stored, every key is empty, no page is created, and only four page creations are attempted |
| `Aggregate.OtherKeysIndependent` | services/scrapers.js:226-238 | replacing one shop's page by any other leaves every other shop's key unchanged |
| `Aggregate.ReadinessFailureIsolated` | services/scrapers.js:226-238 | a shop whose readiness wait rejects yields `[]`, whatever its setup and close do, and every other key is what it would be with any other page for that shop |
| `Scraper.Browser.constructor` | services/scrapers.js:9-19 | a launched browser is connected |
| `Scraper.Browser.Close` | services/scrapers.js:24 | a browser whose close resolves is disconnected; a rejecting close changes nothing |
| `Scraper.SupermarketScraper.constructor` | services/scrapers.js:4-6 | no browser is stored, and nothing is launched, open or called |
| `Scraper.SupermarketScraper.Initialize` | services/scrapers.js:8-20 | a resolving launch stores a fresh connected browser and leaves any previous one connected; a rejecting launch leaves the field as it was |
| `Scraper.SupermarketScraper.Close` | services/scrapers.js:22-26 | the field is never changed; a stored browser is closed as its close call says; with none stored, close resolves |
| `Scraper.SupermarketScraper.SetupPage` | services/scrapers.js:28-43 | calls, result and open-page count are exactly those of `Setup` |
| `Scraper.SupermarketScraper.TryBlockSteps` | services/scrapers.js:47-80 | the try body makes its calls in order and returns the list the try block yields |
| `Scraper.SupermarketScraper.Scrape` | services/scrapers.js:45-87 | the scrape settles, calls and changes the open-page count exactly as `ScrapeRun` specifies |
| `Scraper.SupermarketScraper.ScrapeSource` | services/scrapers.js:45-219 | each shop is scraped with its own adapter and page |
| `Scraper.SupermarketScraper.ScrapeAll` | services/scrapers.js:226-231 | the four outcomes are settled in call order; the page calls of the four scrapes follow each other; the open-page count rises only by leaked pages |
| `Scraper.SupermarketScraper.SearchAllSupermarkets` | services/scrapers.js:221-239 | a launch happens only when no browser is stored; a rejecting launch rejects the search; a resolving lazy launch stores a fresh connected browser and the result is the live-browser `SearchResult`; with a browser already stored the result is the `SearchResult` of that browser's connected state |

## Left out

- Puppeteer itself is left out. This covers the launch arguments, the user-agent string, the
  viewport size, and what `networkidle0` means. Every awaited call only resolves or rejects, and
  the 30000/5000/10000 ms timeouts appear only as constants in the recorded calls.
- `parseFloat` is a parameter of the environment. It maps a string to NaN, an infinity or a
  finite real. Floating-point rounding is not modelled.
- The DOM inside `page.evaluate` is abstract. An item node maps each sub-selector to the element
  that `querySelector` would return. `querySelectorAll` is what `evaluate` yields for the item
  selector.
- `encodeURIComponent` is a total parameter of the environment. It never throws, although the real
  function throws `URIError` on a query that holds a lone UTF-16 surrogate. Such a query would make
  the scrape resolve to `[]` after `page.close()`, without any `goto`. The model does not capture this.
- Strings are sequences of Unicode scalar values, not of UTF-16 code units. So lone surrogates
  cannot occur in the model, and lengths and indices of text beyond the Basic Multilingual Plane
  differ from JavaScript's.
- `Promise.allSettled` runs the four scrapes concurrently. The model runs them in call order,
  because they share nothing but the browser handle. The interleaving is not modelled.
- A page's answer to `goto` or `waitForSelector` is a fixed function of the URL or selector. It
  does not depend on time or on earlier calls.
- The outcome of `page.click` on the consent button is not part of the page script, because
  either outcome leads to the readiness wait. The click is still recorded among the calls.
- `page.on('request', ...)` is not recorded among the calls, and the requests a page issues
  while loading are not modelled. The handler is modelled as `Renderer.InterceptRequest`.
- A `page.close()` that rejects still counts as releasing the page. Its only modelled effect is
  that the scrape rejects.
- With no browser stored, the `TypeError` of `this.browser.newPage()` is modelled as a page
  creation that rejects. `newPage` on a closed browser also rejects.
- Error logging (`console.error`) is left out.
- Serialising `page.evaluate`'s return value back to Node is not modelled. The model's records are
  those the page function builds. It does not follow how a non-finite price is encoded on the way
  back, or that `undefined` fields are dropped.
- The shared instance created by `module.exports` is left out.
- The race of a search that arrives while the start-up launch is still pending is left out: it
  depends on concurrency.
- `index.js` is not part of this model: the HTTP routes, CORS, signal handling and error
  responses.
- `puppeteer.config.cjs` is not part of this model: browser download configuration.
