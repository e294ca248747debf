/**
 * The four shops and, for each, the constants its scrape routine uses: the
 * search URL prefix, the cookie-consent button, the selector that marks the
 * product list as rendered and matches every product node, and the field
 * sub-selectors. All four routines share one pipeline (module Pipeline).
 */
module Adapters {

  import opened Extraction

  datatype Source = Rewe | Lidl | Aldi | Penny

  datatype Adapter = Adapter(
    urlPrefix: string,
    consentSelector: string,
    readySelector: string,
    itemSelector: string,
    fields: FieldSelectors)

  /** Timeouts, in milliseconds, of navigation, the consent wait and the readiness wait. */
  const NavigationTimeoutMs: nat := 30000
  const ConsentTimeoutMs: nat := 5000
  const ReadyTimeoutMs: nat := 10000

  /** The order in which the sources are started and their results listed. */
  const CallOrder: seq<Source> := [Rewe, Lidl, Aldi, Penny]

  /** The key of a source in the aggregate result. */
  function KeyOf(s: Source): string {
    match s
    case Rewe => "rewe"
    case Lidl => "lidl"
    case Aldi => "aldi"
    case Penny => "penny"
  }

  const ReweAdapter := Adapter(
    "https://shop.rewe.de/search/",
    "#uc-btn-accept-banner",
    "[data-testid=\"product-card\"]",
    "[data-testid=\"product-card\"]",
    FieldSelectors("[data-testid=\"product-title\"]", "[data-testid=\"product-price\"]",
                   "img", "[data-testid=\"product-grammage\"]"))

  const LidlAdapter := Adapter(
    "https://www.lidl.de/suche?query=",
    "#onetrust-accept-btn-handler",
    ".product__grid-card",
    ".product__grid-card",
    FieldSelectors(".product__title", ".price__amount", ".product__image img", ".price__unit"))

  const AldiAdapter := Adapter(
    "https://www.aldi-sued.de/de/produkte/" + "produktsuche.html?search=",
    ".js-cookie-accept-all",
    ".product-tile",
    ".product-tile",
    FieldSelectors(".product-tile__title", ".price__main", ".product-tile__image img", ".price__basic"))

  const PennyAdapter := Adapter(
    "https://www.penny.de/suche?q=",
    "#onetrust-accept-btn-handler",
    ".penny-product-tile",
    ".penny-product-tile",
    FieldSelectors(".penny-product-tile__title", ".penny-product-tile__price-main",
                   ".penny-product-tile__image img", ".penny-product-tile__price-basic"))

  /**
   * The adapter of a source. In every one of them the readiness wait and the
   * node enumeration use the same selector, and the consent button is a
   * different element from the product list.
   */
  function AdapterFor(s: Source): (a: Adapter)
    ensures a.readySelector == a.itemSelector
    ensures a.consentSelector != a.readySelector
  {
    match s
    case Rewe => ReweAdapter
    case Lidl => LidlAdapter
    case Aldi => AldiAdapter
    case Penny => PennyAdapter
  }

  /** The search URL: the adapter's prefix followed by the encoded query. */
  function TargetUrl(a: Adapter, encodeURIComponent: string -> string, query: string): (url: string)
    ensures |url| == |a.urlPrefix| + |encodeURIComponent(query)|
    ensures url[..|a.urlPrefix|] == a.urlPrefix
    ensures url[|a.urlPrefix|..] == encodeURIComponent(query)
  {
    a.urlPrefix + encodeURIComponent(query)
  }

  /** The character of a source's URL prefix at position 8 or 12. */
  function HostLetter(s: Source, k: nat): char
    requires k == 8 || k == 12
  {
    match s
    case Rewe => if k == 8 then 's' else '.'
    case Lidl => if k == 8 then 'w' else 'l'
    case Aldi => if k == 8 then 'w' else 'a'
    case Penny => if k == 8 then 'w' else 'p'
  }

  lemma PrefixLetter(s: Source, k: nat)
    requires k == 8 || k == 12
    ensures k < |AdapterFor(s).urlPrefix| && AdapterFor(s).urlPrefix[k] == HostLetter(s, k)
  {
    match s
    case Rewe => assert ReweAdapter.urlPrefix[k] == HostLetter(s, k);
    case Lidl => assert LidlAdapter.urlPrefix[k] == HostLetter(s, k);
    case Aldi => assert AldiAdapter.urlPrefix[k] == HostLetter(s, k);
    case Penny => assert PennyAdapter.urlPrefix[k] == HostLetter(s, k);
  }

  /**
   * No two sources search at the same address: for one query, the URLs of
   * different sources differ (in the host, or in its first letter).
   */
  lemma TargetUrlsDistinct(s: Source, t: Source, encodeURIComponent: string -> string, query: string)
    requires s != t
    ensures TargetUrl(AdapterFor(s), encodeURIComponent, query) != TargetUrl(AdapterFor(t), encodeURIComponent, query)
  {
    var k := if s == Rewe || t == Rewe then 8 else 12;
    var a, b := AdapterFor(s), AdapterFor(t);
    PrefixLetter(s, k);
    PrefixLetter(t, k);
    assert TargetUrl(a, encodeURIComponent, query)[k] == a.urlPrefix[k];
    assert TargetUrl(b, encodeURIComponent, query)[k] == b.urlPrefix[k];
  }

  /** The four keys are distinct, so no source's result can hide another's. */
  lemma KeysDistinct(s: Source, t: Source)
    ensures KeyOf(s) == KeyOf(t) <==> s == t
  {
  }

  /** Every source appears exactly once in the call order. */
  lemma CallOrderCoversSources(s: Source)
    ensures |CallOrder| == 4
    ensures exists i :: 0 <= i < 4 && CallOrder[i] == s
    ensures forall i, j :: 0 <= i < j < 4 ==> CallOrder[i] != CallOrder[j]
  {
    match s
    case Rewe => assert CallOrder[0] == s;
    case Lidl => assert CallOrder[1] == s;
    case Aldi => assert CallOrder[2] == s;
    case Penny => assert CallOrder[3] == s;
  }
}
