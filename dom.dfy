/** The page's document as the content script sees it: a tree of elements,
    each with its light children and possibly an attached shadow root, and
    the browser's own (light-DOM) `querySelector` / `querySelectorAll`.
    CSS matching itself is not modelled: every element records the set of
    selector strings it matches. */
module Dom {
  import opened Js

  datatype Element = Element(
    key: nat,                    // node identity
    selectors: set<string>,      // the selectors this element matches
    innerText: Option<string>,   // `innerText`, absent for non-HTML elements
    attributes: map<string, string>,
    children: seq<Element>,      // light-DOM children, in document order
    shadowRoot: Option<Root>)    // `element.shadowRoot`

  /** A document or a shadow root: something `querySelectorAll` runs on. */
  datatype Root = Root(children: seq<Element>)

  function Size(e: Element): nat
    decreases e, 1
  {
    1 + ForestSize(e.children) + (if e.shadowRoot.Some? then RootSize(e.shadowRoot.value) else 0)
  }

  function RootSize(r: Root): nat
    decreases r, 1
  {
    ForestSize(r.children)
  }

  function ForestSize(es: seq<Element>): nat
    decreases es, 0
  {
    if es == [] then 0 else Size(es[0]) + ForestSize(es[1..])
  }

  /** The light-DOM descendants of a forest in document (pre-)order; this is
      what `querySelectorAll('*')` enumerates. It never enters a shadow root. */
  function Descendants(es: seq<Element>): seq<Element>
    decreases ForestSize(es)
  {
    if es == [] then []
    else
      assert ForestSize(es) == Size(es[0]) + ForestSize(es[1..]);
      [es[0]] + Descendants(es[0].children) + Descendants(es[1..])
  }

  /** Every light descendant is no larger than the forest it was found in. */
  lemma {:induction false} DescendantsBounded(es: seq<Element>)
    ensures forall e <- Descendants(es) :: Size(e) <= ForestSize(es)
    decreases ForestSize(es)
  {
    if es != [] {
      assert ForestSize(es) == Size(es[0]) + ForestSize(es[1..]);
      DescendantsBounded(es[0].children);
      DescendantsBounded(es[1..]);
    }
  }

  /** The elements of `es` that match `selector`, in order. */
  function Matching(es: seq<Element>, selector: string): (r: seq<Element>)
    ensures |r| <= |es|
    ensures forall e <- r :: e in es && selector in e.selectors
  {
    if es == [] then []
    else (if selector in es[0].selectors then [es[0]] else []) + Matching(es[1..], selector)
  }

  lemma {:induction false} MatchingAppend(a: seq<Element>, b: seq<Element>, selector: string)
    ensures Matching(a + b, selector) == Matching(a, selector) + Matching(b, selector)
  {
    if a != [] {
      assert (a + b)[1..] == a[1..] + b;
      MatchingAppend(a[1..], b, selector);
    } else {
      assert a + b == b;
    }
  }

  /** `es[k]` is the first element of `es` the selector matches. */
  predicate FirstMatchAt(es: seq<Element>, selector: string, k: int) {
    && 0 <= k < |es|
    && selector in es[k].selectors
    && forall j :: 0 <= j < k ==> selector !in es[j].selectors
  }

  /** The matches are empty exactly when no element matches, and otherwise
      begin with the first element that does. */
  lemma {:induction false} MatchingHead(es: seq<Element>, selector: string)
    ensures Matching(es, selector) == [] <==> forall e <- es :: selector !in e.selectors
    ensures Matching(es, selector) != [] ==>
      exists k :: FirstMatchAt(es, selector, k) && Matching(es, selector)[0] == es[k]
  {
    if es != [] {
      MatchingHead(es[1..], selector);
      if selector in es[0].selectors {
        assert FirstMatchAt(es, selector, 0);
      } else if Matching(es, selector) != [] {
        var k :| FirstMatchAt(es[1..], selector, k) && Matching(es[1..], selector)[0] == es[1..][k];
        assert FirstMatchAt(es, selector, k + 1);
      } else {
        forall e <- es ensures selector !in e.selectors {
          if e != es[0] {
            assert e in es[1..];
          }
        }
      }
    }
  }

  /** `root.querySelectorAll(selector)`: the matching light descendants. */
  function QuerySelectorAll(r: Root, selector: string): seq<Element> {
    Matching(Descendants(r.children), selector)
  }

  /** `root.querySelector(selector)`: the first matching light descendant,
      or null. */
  function QuerySelector(r: Root, selector: string): (found: Option<Element>)
    ensures found.None? <==> QuerySelectorAll(r, selector) == []
    ensures found.Some? ==> found.value == QuerySelectorAll(r, selector)[0]
    ensures found.None? <==> forall e <- Descendants(r.children) :: selector !in e.selectors
    ensures found.Some? ==>
      exists k :: FirstMatchAt(Descendants(r.children), selector, k) && found.value == Descendants(r.children)[k]
  {
    MatchingHead(Descendants(r.children), selector);
    var all := QuerySelectorAll(r, selector);
    if all == [] then None else Some(all[0])
  }

  /** `element.querySelector(selector)`: the first matching light
      descendant of the element (the element itself excluded), or null. */
  function ElementQuerySelector(e: Element, selector: string): (r: Option<Element>)
    ensures r.None? <==> Matching(Descendants(e.children), selector) == []
    ensures r.Some? ==> r.value == Matching(Descendants(e.children), selector)[0]
    ensures r.None? <==> forall d <- Descendants(e.children) :: selector !in d.selectors
    ensures r.Some? ==>
      exists k :: FirstMatchAt(Descendants(e.children), selector, k) && r.value == Descendants(e.children)[k]
  {
    MatchingHead(Descendants(e.children), selector);
    var all := Matching(Descendants(e.children), selector);
    if all == [] then None else Some(all[0])
  }
}
