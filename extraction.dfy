/**
 * The function that each source runs inside the page: read the four fields of
 * every item node, normalise the price text, and keep only the candidates
 * whose `name && price` is truthy.
 */
module Extraction {

  import opened Wrappers
  import opened Text

  /**
   * A JavaScript number as far as truthiness is concerned: NaN, an infinity,
   * or a finite value (positive and negative zero are both `Finite(0.0)`).
   * Floating-point rounding is not modelled.
   */
  datatype Number = NaN | Infinity(negative: bool) | Finite(value: real)

  /** `Boolean(n)`: false for NaN and for zero, true otherwise. */
  predicate Truthy(n: Number) {
    match n
    case NaN => false
    case Infinity(_) => true
    case Finite(v) => v != 0.0
  }

  /** A DOM element as the extraction reads it: its text content and, for an img, its src. */
  datatype Element = Element(textContent: string, src: string)

  /**
   * One node matched by a source's item selector. `firstMatch[sel]` is the
   * element `node.querySelector(sel)` returns; a selector that matches
   * nothing is absent from the map.
   */
  datatype ItemNode = ItemNode(firstMatch: map<string, Element>)

  /** The sub-selectors, relative to an item node, of the four fields. */
  datatype FieldSelectors = FieldSelectors(name: string, price: string, image: string, unit: string)

  /**
   * The record built for one item node; `None` stands for `undefined`, the
   * value of an optional chain whose element is missing.
   */
  datatype Item = Item(name: Option<string>, price: Number, image: Option<string>, unit: Option<string>)

  function QuerySelector(node: ItemNode, selector: string): Option<Element> {
    if selector in node.firstMatch then Some(node.firstMatch[selector]) else None
  }

  function TrimmedText(e: Option<Element>): Option<string> {
    match e
    case None => None
    case Some(el) => Some(Trim(el.textContent))
  }

  /**
   * The object literal mapped over each item node. A missing price element
   * makes the argument of `parseFloat` undefined, which parses to NaN.
   */
  function ReadItem(fields: FieldSelectors, parseFloat: string -> Number, node: ItemNode): Item {
    Item(
      TrimmedText(QuerySelector(node, fields.name)),
      match QuerySelector(node, fields.price)
      case None => NaN
      case Some(el) => parseFloat(NormalisePrice(el.textContent)),
      match QuerySelector(node, fields.image)
      case None => None
      case Some(el) => Some(el.src),
      TrimmedText(QuerySelector(node, fields.unit)))
  }

  /** The filter `item => item.name && item.price`. */
  predicate Keep(item: Item) {
    item.name.Some? && item.name.value != "" && Truthy(item.price)
  }

  /** `Array.prototype.filter` with `Keep`: every record it returns is kept. */
  function Filter(items: seq<Item>): (r: seq<Item>)
    ensures |r| <= |items|
    ensures forall k :: 0 <= k < |r| ==> Keep(r[k])
  {
    if items == [] then []
    else if Keep(items[0]) then [items[0]] + Filter(items[1..])
    else Filter(items[1..])
  }

  /** `Array.from(items).map(...)`: one record per node, in document order. */
  function ReadAll(fields: FieldSelectors, parseFloat: string -> Number, nodes: seq<ItemNode>): (r: seq<Item>)
    ensures |r| == |nodes|
    ensures forall i :: 0 <= i < |nodes| ==> r[i] == ReadItem(fields, parseFloat, nodes[i])
  {
    seq(|nodes|, i requires 0 <= i < |nodes| => ReadItem(fields, parseFloat, nodes[i]))
  }

  /** What the page function returns for the item nodes of the document. */
  function Extract(fields: FieldSelectors, parseFloat: string -> Number, nodes: seq<ItemNode>): (r: seq<Item>)
    ensures |r| <= |nodes|
    ensures forall k :: 0 <= k < |r| ==> Keep(r[k])
  {
    Filter(ReadAll(fields, parseFloat, nodes))
  }

  /** The positions from `from` on of `items` that the filter keeps, in increasing order. */
  ghost function KeptPositionsFrom(items: seq<Item>, from: nat): seq<nat>
    requires from <= |items|
    decreases |items| - from
  {
    if from == |items| then []
    else (if Keep(items[from]) then [from] else []) + KeptPositionsFrom(items, from + 1)
  }

  ghost function KeptPositions(items: seq<Item>): seq<nat> {
    KeptPositionsFrom(items, 0)
  }

  /**
   * `r` is the subsequence of `items` at the strictly increasing positions
   * `ps`, and those are exactly the positions whose record is kept.
   */
  ghost predicate SelectsKept(items: seq<Item>, r: seq<Item>, ps: seq<nat>) {
    && |ps| == |r|
    && (forall k :: 0 <= k < |ps| ==> ps[k] < |items| && r[k] == items[ps[k]])
    && (forall k, l :: 0 <= k < l < |ps| ==> ps[k] < ps[l])
    && (forall j :: 0 <= j < |items| ==> (Keep(items[j]) <==> j in ps))
  }

  /** The kept positions point, one by one, at the records the filter returns. */
  lemma {:induction false} KeptPositionsPointAtFiltered(items: seq<Item>, from: nat)
    requires from <= |items|
    ensures |KeptPositionsFrom(items, from)| == |Filter(items[from..])|
    ensures forall k :: 0 <= k < |KeptPositionsFrom(items, from)| ==>
      KeptPositionsFrom(items, from)[k] < |items| && Filter(items[from..])[k] == items[KeptPositionsFrom(items, from)[k]]
    decreases |items| - from
  {
    if from < |items| {
      KeptPositionsPointAtFiltered(items, from + 1);
      assert items[from..][1..] == items[from + 1..];
    }
  }

  /** The kept positions are strictly increasing and lie in `[from, |items|)`. */
  lemma {:induction false} KeptPositionsIncrease(items: seq<Item>, from: nat)
    requires from <= |items|
    ensures forall k :: 0 <= k < |KeptPositionsFrom(items, from)| ==>
      from <= KeptPositionsFrom(items, from)[k] < |items|
    ensures forall k, l :: 0 <= k < l < |KeptPositionsFrom(items, from)| ==>
      KeptPositionsFrom(items, from)[k] < KeptPositionsFrom(items, from)[l]
    decreases |items| - from
  {
    if from < |items| {
      KeptPositionsIncrease(items, from + 1);
    }
  }

  /** A position from `from` on is kept exactly when its record passes the filter. */
  lemma {:induction false} KeptPositionsExact(items: seq<Item>, from: nat)
    requires from <= |items|
    ensures forall j :: from <= j < |items| ==> (Keep(items[j]) <==> j in KeptPositionsFrom(items, from))
    decreases |items| - from
  {
    if from < |items| {
      KeptPositionsExact(items, from + 1);
      KeptPositionsIncrease(items, from + 1);
    }
  }

  /**
   * The filter is an order-preserving selection: it neither invents,
   * reorders nor alters records, and drops exactly those that fail `Keep`.
   */
  lemma FilterSelectsKept(items: seq<Item>)
    ensures SelectsKept(items, Filter(items), KeptPositions(items))
  {
    KeptPositionsPointAtFiltered(items, 0);
    KeptPositionsIncrease(items, 0);
    KeptPositionsExact(items, 0);
    assert items[0..] == items;
  }

  /** Records of different nodes are filtered independently of each other. */
  lemma {:induction false} FilterAppend(a: seq<Item>, b: seq<Item>)
    ensures Filter(a + b) == Filter(a) + Filter(b)
  {
    if a != [] {
      assert (a + b)[1..] == a[1..] + b;
      FilterAppend(a[1..], b);
    } else {
      assert a + b == b;
    }
  }

  /**
   * Extraction returns, in document order, the records of exactly those
   * nodes that pass the filter, each built from that one node's fields.
   */
  lemma ExtractSelectsNodes(fields: FieldSelectors, parseFloat: string -> Number, nodes: seq<ItemNode>)
    ensures var ps := KeptPositions(ReadAll(fields, parseFloat, nodes));
      var r := Extract(fields, parseFloat, nodes);
      && |ps| == |r|
      && (forall k, l :: 0 <= k < l < |ps| ==> ps[k] < ps[l])
      && (forall k :: 0 <= k < |ps| ==> ps[k] < |nodes| && r[k] == ReadItem(fields, parseFloat, nodes[ps[k]]))
      && (forall j :: 0 <= j < |nodes| ==> (Keep(ReadItem(fields, parseFloat, nodes[j])) <==> j in ps))
  {
    FilterSelectsKept(ReadAll(fields, parseFloat, nodes));
  }

  /**
   * A node's record is kept if and only if it has a name element whose text
   * is not all whitespace and a price element whose normalised text parses
   * to a truthy number.
   */
  lemma KeepIff(fields: FieldSelectors, parseFloat: string -> Number, node: ItemNode)
    ensures Keep(ReadItem(fields, parseFloat, node)) <==>
      && fields.name in node.firstMatch
      && !AllWhitespace(node.firstMatch[fields.name].textContent)
      && fields.price in node.firstMatch
      && Truthy(parseFloat(NormalisePrice(node.firstMatch[fields.price].textContent)))
  {
  }

  /** The four ways a candidate is dropped. */
  lemma DroppedCandidates(fields: FieldSelectors, parseFloat: string -> Number, node: ItemNode)
    ensures fields.name in node.firstMatch && AllWhitespace(node.firstMatch[fields.name].textContent)
      ==> !Keep(ReadItem(fields, parseFloat, node))
    ensures fields.price !in node.firstMatch ==> !Keep(ReadItem(fields, parseFloat, node))
    ensures fields.price in node.firstMatch
      && parseFloat(NormalisePrice(node.firstMatch[fields.price].textContent)) in {NaN, Finite(0.0)}
      ==> !Keep(ReadItem(fields, parseFloat, node))
  {
  }
}
