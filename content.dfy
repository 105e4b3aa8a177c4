/** content.js: the page agent. Deep (shadow-piercing) search, the
    structured extractors built on it, page actions and the message switch. */
module Content {
  import opened Js
  import opened Dom

  // ---------------------------------------------------------------------
  // Deep search
  // ---------------------------------------------------------------------

  /** What a deep search for `selector` under `r` finds: the light-DOM
      matches in document order, then, for every light descendant that hosts
      a shadow root, in document order, the deep matches inside that shadow
      root. */
  function DeepMatches(r: Root, selector: string): seq<Element>
    decreases RootSize(r), 1
  {
    DescendantsBounded(r.children);
    QuerySelectorAll(r, selector) + ShadowMatches(Descendants(r.children), selector, RootSize(r))
  }

  /** The deep matches inside the shadow roots of `hosts`, host by host. */
  function ShadowMatches(hosts: seq<Element>, selector: string, ghost bound: nat): seq<Element>
    requires forall h <- hosts :: Size(h) <= bound
    decreases bound, 0, |hosts|
  {
    if hosts == [] then []
    else
      (match hosts[0].shadowRoot
       case Some(sr) =>
         assert hosts[0] in hosts && RootSize(sr) < Size(hosts[0]);
         DeepMatches(sr, selector)
       case None => [])
      + ShadowMatches(hosts[1..], selector, bound)
  }

  /** `deepQueryAll` with its null check. */
  function DeepQueryAllOf(root: Option<Root>, selector: string): seq<Element> {
    if root.Some? then DeepMatches(root.value, selector) else []
  }

  function First(s: seq<Element>): Option<Element> {
    if s == [] then None else Some(s[0])
  }

  lemma BoundedAppend(a: seq<Element>, b: seq<Element>, bound: nat)
    requires forall h <- a + b :: Size(h) <= bound
    ensures forall h <- a :: Size(h) <= bound
    ensures forall h <- b :: Size(h) <= bound
  {
    assert forall h <- a :: h in a + b;
    assert forall h <- b :: h in a + b;
  }

  lemma {:induction false} ShadowMatchesAppend(a: seq<Element>, b: seq<Element>, selector: string, bound: nat)
    requires forall h <- a + b :: Size(h) <= bound
    ensures forall h <- a :: Size(h) <= bound
    ensures forall h <- b :: Size(h) <= bound
    ensures ShadowMatches(a + b, selector, bound) == ShadowMatches(a, selector, bound) + ShadowMatches(b, selector, bound)
    decreases |a|
  {
    BoundedAppend(a, b, bound);
    if a == [] {
      assert a + b == b;
    } else {
      assert (a + b)[1..] == a[1..] + b;
      ShadowMatchesAppend(a[1..], b, selector, bound);
    }
  }

  /** Extending the hosts by one adds that host's own deep matches. */
  lemma ShadowMatchesExtend(hosts: seq<Element>, i: nat, selector: string, bound: nat)
    requires i < |hosts| && forall h <- hosts :: Size(h) <= bound
    ensures forall h <- hosts[..i] :: Size(h) <= bound
    ensures forall h <- hosts[..i + 1] :: Size(h) <= bound
    ensures ShadowMatches(hosts[..i + 1], selector, bound)
      == ShadowMatches(hosts[..i], selector, bound)
         + (if hosts[i].shadowRoot.Some? then DeepMatches(hosts[i].shadowRoot.value, selector) else [])
  {
    assert hosts[..i + 1] == hosts[..i] + [hosts[i]];
    assert forall h <- hosts[..i + 1] :: h in hosts;
    ShadowMatchesAppend(hosts[..i], [hosts[i]], selector, bound);
    assert [hosts[i]][1..] == [];
  }

  /** When the shadow roots of the first `i` hosts hold no match, the
      search over all hosts yields host `i`'s own deep matches first. */
  lemma SplitAtHost(hosts: seq<Element>, selector: string, bound: nat, i: nat)
    requires i < |hosts| && hosts[i].shadowRoot.Some?
    requires forall h <- hosts :: Size(h) <= bound
    requires ShadowMatches(hosts[..i], selector, bound) == []
    ensures hosts[i] in hosts
    ensures ShadowMatches(hosts, selector, bound)
      == DeepMatches(hosts[i].shadowRoot.value, selector) + ShadowMatches(hosts[i + 1..], selector, bound)
  {
    var rest := [hosts[i]] + hosts[i + 1..];
    assert hosts == hosts[..i] + rest;
    ShadowMatchesAppend(hosts[..i], rest, selector, bound);
    ShadowMatchesAppend([hosts[i]], hosts[i + 1..], selector, bound);
    assert [hosts[i]][1..] == [];
  }

  /** deepQueryAll (content.js): a null root yields no element; otherwise
      the light matches come first, then the results of every shadow host's
      recursive search, hosts in document order. */
  method DeepQueryAll(root: Option<Root>, selector: string) returns (results: seq<Element>)
    ensures root.None? ==> results == []
    ensures results == DeepQueryAllOf(root, selector)
    decreases if root.Some? then RootSize(root.value) else 0, 1
  {
    if root.None? {
      return [];
    }
    var r := root.value;
    results := QuerySelectorAll(r, selector);
    var elems := Descendants(r.children);
    DescendantsBounded(r.children);
    var inShadows := SearchShadowRoots(elems, selector, RootSize(r));
    results := results + inShadows;
  }

  /** The `forEach` of deepQueryAll over the light descendants: every host's
      shadow root is searched recursively and its results are appended. */
  method SearchShadowRoots(hosts: seq<Element>, selector: string, ghost bound: nat) returns (found: seq<Element>)
    requires forall h <- hosts :: Size(h) <= bound
    ensures found == ShadowMatches(hosts, selector, bound)
    decreases bound, 0
  {
    found := [];
    for i := 0 to |hosts|
      invariant found == ShadowMatches(hosts[..i], selector, bound)
    {
      ShadowMatchesExtend(hosts, i, selector, bound);
      if hosts[i].shadowRoot.Some? {
        assert hosts[i] in hosts && RootSize(hosts[i].shadowRoot.value) < Size(hosts[i]);
        var inner := DeepQueryAll(hosts[i].shadowRoot, selector);
        found := found + inner;
      }
    }
    assert hosts[..|hosts|] == hosts;
  }

  /** A deep search lists the light-DOM matches first, in document order. */
  lemma LightMatchesFirst(r: Root, selector: string)
    ensures var all := DeepMatches(r, selector);
      |all| >= |QuerySelectorAll(r, selector)| && all[..|QuerySelectorAll(r, selector)|] == QuerySelectorAll(r, selector)
  {
    DescendantsBounded(r.children);
    var light := QuerySelectorAll(r, selector);
    var shadow := ShadowMatches(Descendants(r.children), selector, RootSize(r));
    assert DeepMatches(r, selector) == light + shadow;
    assert (light + shadow)[..|light|] == light;
  }

  /** deepQuerySelector (content.js): null for a null root; otherwise the
      first light match, or else the first non-null result of the recursive
      search over shadow hosts in document order. It finds nothing exactly
      when deepQueryAll finds nothing, and otherwise deepQueryAll's first
      element. */
  method DeepQuerySelector(root: Option<Root>, selector: string) returns (found: Option<Element>)
    ensures root.None? ==> found.None?
    ensures root.Some? && QuerySelector(root.value, selector).Some? ==> found == QuerySelector(root.value, selector)
    ensures found.None? <==> DeepQueryAllOf(root, selector) == []
    ensures found.Some? ==> found.value == DeepQueryAllOf(root, selector)[0]
    decreases if root.Some? then RootSize(root.value) else 0
  {
    if root.None? {
      return None;
    }
    var r := root.value;
    var el := QuerySelector(r, selector);
    if el.Some? {
      assert DeepMatches(r, selector)[0] == QuerySelectorAll(r, selector)[0];
      return el;
    }
    var elems := Descendants(r.children);
    DescendantsBounded(r.children);
    ghost var b := RootSize(r);
    assert DeepMatches(r, selector) == ShadowMatches(elems, selector, b);
    for i := 0 to |elems|
      invariant ShadowMatches(elems[..i], selector, b) == []
    {
      assert elems[..i + 1] == elems[..i] + [elems[i]];
      ShadowMatchesAppend(elems[..i], [elems[i]], selector, b);
      if elems[i].shadowRoot.Some? {
        assert elems[i] in elems && RootSize(elems[i].shadowRoot.value) < Size(elems[i]);
        found := DeepQuerySelector(elems[i].shadowRoot, selector);
        if found.Some? {
          SplitAtHost(elems, selector, b, i);
          return;
        }
      }
    }
    assert elems[..|elems|] == elems;
    found := None;
  }

  /** Every element the deep search inspects, in the order it inspects them:
      the light descendants, then each shadow host's shadow tree in turn. */
  function DeepElements(r: Root): seq<Element>
    decreases RootSize(r), 1
  {
    DescendantsBounded(r.children);
    Descendants(r.children) + ShadowElements(Descendants(r.children), RootSize(r))
  }

  function ShadowElements(hosts: seq<Element>, ghost bound: nat): seq<Element>
    requires forall h <- hosts :: Size(h) <= bound
    decreases bound, 0, |hosts|
  {
    if hosts == [] then []
    else
      (match hosts[0].shadowRoot
       case Some(sr) =>
         assert hosts[0] in hosts && RootSize(sr) < Size(hosts[0]);
         DeepElements(sr)
       case None => [])
      + ShadowElements(hosts[1..], bound)
  }

  /** A deep search for any selector is the filter of one selector-independent
      enumeration of the composed tree: it returns exactly the matching
      elements of that enumeration, in its order. */
  lemma {:induction false} DeepMatchesFilterDeepElements(r: Root, selector: string)
    ensures DeepMatches(r, selector) == Matching(DeepElements(r), selector)
    decreases RootSize(r), 1
  {
    var light := Descendants(r.children);
    DescendantsBounded(r.children);
    ShadowMatchesFilterShadowElements(light, selector, RootSize(r));
    MatchingAppend(light, ShadowElements(light, RootSize(r)), selector);
  }

  lemma {:induction false} ShadowMatchesFilterShadowElements(hosts: seq<Element>, selector: string, bound: nat)
    requires forall h <- hosts :: Size(h) <= bound
    ensures ShadowMatches(hosts, selector, bound) == Matching(ShadowElements(hosts, bound), selector)
    decreases bound, 0, |hosts|
  {
    if hosts != [] {
      assert hosts[0] in hosts;
      var own := match hosts[0].shadowRoot case Some(sr) => DeepElements(sr) case None => [];
      if hosts[0].shadowRoot.Some? {
        DeepMatchesFilterDeepElements(hosts[0].shadowRoot.value, selector);
      }
      ShadowMatchesFilterShadowElements(hosts[1..], selector, bound);
      MatchingAppend(own, ShadowElements(hosts[1..], bound), selector);
    }
  }

  /** A chain of shadow hosts: the host at depth `k` carries key `keys[k]`,
      matches `selector`, and its shadow root holds the next host. */
  function NestedHosts(keys: seq<nat>, selector: string): Root
    decreases |keys|
  {
    if keys == [] then Root([])
    else Root([Element(keys[0], {selector}, None, map[], [], Some(NestedHosts(keys[1..], selector)))])
  }

  /** With N nested shadow roots each holding one match, the deep search
      finds exactly N elements, outermost first. */
  lemma {:induction false} NestedHostsFoundOuterFirst(keys: seq<nat>, selector: string)
    ensures |DeepMatches(NestedHosts(keys, selector), selector)| == |keys|
    ensures forall k :: 0 <= k < |keys| ==> DeepMatches(NestedHosts(keys, selector), selector)[k].key == keys[k]
    decreases |keys|
  {
    var r := NestedHosts(keys, selector);
    if keys != [] {
      var host := r.children[0];
      NestedHostsFoundOuterFirst(keys[1..], selector);
      assert Descendants([]) == [];
      assert r.children[1..] == [];
      assert Descendants(r.children) == [host];
      assert QuerySelectorAll(r, selector) == [host];
      DescendantsBounded(r.children);
      assert [host][1..] == [];
      assert ShadowMatches([host], selector, RootSize(r)) == DeepMatches(NestedHosts(keys[1..], selector), selector);
    } else {
      assert Descendants(r.children) == [];
    }
  }

  // ---------------------------------------------------------------------
  // Extractors
  // ---------------------------------------------------------------------

  const KeyBlockSelector := "[data-container-name=\"key-stats-id\"] [class*=\"block-\"]"
  const KeyLabelSelector := "[class*=\"label-\"]"
  const KeyValueSelector := "[class*=\"value-\"]"
  const CompanyInfoSelector := "[data-container-name=\"company-info-id\"] [class*=\"content-\"]"
  const FaqItemSelector := "[data-container-name=\"symbol-faq-widget-id\"] [class*=\"item-\"]"
  const FaqQuestionSelector := "[class*=\"summaryText-\"]"
  const FaqAnswerSelector := "[class*=\"details-\"]"
  const TabSelector := ".js-category-tab"
  const TitleSelector := "h1[class^=\"title-\"]"
  const TickerSelector := ".js-symbol-header-ticker"
  const LastPriceSelector := ".js-symbol-last span"
  const CurrencySelector := ".js-symbol-currency"
  const ChangeSelector := ".js-symbol-change-direction span"
  const ChangePercentSelector := ".js-symbol-change-pt"
  const MarketStatusSelector := "[class^=\"marketStatusSmall-\"]"
  const LastUpdateSelector := ".js-symbol-lp-time"

  /** A label/value pair (key data) or a question/answer pair (FAQ). */
  datatype Pair = Pair(first: string, second: string)

  /** One navigation tab: trimmed text, `href` attribute, the element. */
  datatype TabLink = TabLink(text: string, href: Option<string>, key: nat)

  /** `xs.map(f).filter(...)`, where `f` yields None for the entries the
      filter drops. */
  function KeepDefined<T, U>(xs: seq<T>, f: T -> Option<U>): (r: seq<U>)
    ensures |r| <= |xs|
    ensures forall y <- r :: exists x <- xs :: f(x) == Some(y)
  {
    if xs == [] then []
    else (match f(xs[0]) case Some(y) => [y] case None => []) + KeepDefined(xs[1..], f)
  }

  /** The map/filter pipeline keeps order: it splits over concatenation, so
      the kept entries of a prefix precede those of the rest. */
  lemma {:induction false} KeepDefinedAppend<T, U>(a: seq<T>, b: seq<T>, f: T -> Option<U>)
    ensures KeepDefined(a + b, f) == KeepDefined(a, f) + KeepDefined(b, f)
  {
    if a == [] {
      assert a + b == b;
    } else {
      assert (a + b)[1..] == a[1..] + b;
      KeepDefinedAppend(a[1..], b, f);
    }
  }

  /** Entry `k` passes the filter, between the entries before and after
      it, exactly when `f` keeps it. */
  lemma KeepDefinedAt<T, U>(xs: seq<T>, k: nat, f: T -> Option<U>)
    requires k < |xs|
    ensures KeepDefined(xs, f)
      == KeepDefined(xs[..k], f) + (if f(xs[k]).Some? then [f(xs[k]).value] else []) + KeepDefined(xs[k + 1..], f)
  {
    var rest := xs[k..];
    assert xs == xs[..k] + rest;
    KeepDefinedAppend(xs[..k], rest, f);
    assert rest[0] == xs[k] && rest[1..] == xs[k + 1..];
  }

  /** `el?.innerText?.trim()` */
  function TrimmedText(el: Option<Element>): (r: Option<string>)
    ensures r.Some? <==> el.Some? && el.value.innerText.Some?
    ensures r.Some? && r.value != "" ==> !IsWhitespace(r.value[0]) && !IsWhitespace(r.value[|r.value| - 1])
  {
    if el.Some? && el.value.innerText.Some? then
      TrimHasNoOuterWhitespace(el.value.innerText.value);
      Some(Trim(el.value.innerText.value))
    else None
  }

  /** `{a, b}` kept by `.filter(x => x.a && x.b)`: both present and non-empty. */
  function BothNonEmpty(a: Option<string>, b: Option<string>): Option<Pair> {
    if a.Some? && a.value != "" && b.Some? && b.value != "" then Some(Pair(a.value, b.value)) else None
  }

  function PairIn(item: Element, firstSelector: string, secondSelector: string): Option<Pair> {
    BothNonEmpty(TrimmedText(ElementQuerySelector(item, firstSelector)),
                 TrimmedText(ElementQuerySelector(item, secondSelector)))
  }

  /** extractKeyDataGeneric (content.js) */
  function KeyData(doc: Root): seq<Pair> {
    KeepDefined(DeepMatches(doc, KeyBlockSelector), b => PairIn(b, KeyLabelSelector, KeyValueSelector))
  }

  /** extractFAQGeneric (content.js) */
  function Faq(doc: Root): seq<Pair> {
    KeepDefined(DeepMatches(doc, FaqItemSelector), i => PairIn(i, FaqQuestionSelector, FaqAnswerSelector))
  }

  /** The key-data and FAQ extractors keep only blocks whose two texts are
      both non-empty, and they keep the deep-search order of the blocks. */
  lemma PairsKeptInOrder(items: seq<Element>, firstSelector: string, secondSelector: string)
    ensures forall p <- KeepDefined(items, i => PairIn(i, firstSelector, secondSelector)) ::
      p.first != "" && p.second != ""
    ensures forall k :: 0 <= k <= |items| ==>
      KeepDefined(items, i => PairIn(i, firstSelector, secondSelector))
      == KeepDefined(items[..k], i => PairIn(i, firstSelector, secondSelector))
         + KeepDefined(items[k..], i => PairIn(i, firstSelector, secondSelector))
  {
    var f := i => PairIn(i, firstSelector, secondSelector);
    forall p: Pair <- KeepDefined(items, f) ensures p.first != "" && p.second != "" {
      var x :| x in items && f(x) == Some(p);
    }
    forall k | 0 <= k <= |items|
      ensures KeepDefined(items, f) == KeepDefined(items[..k], f) + KeepDefined(items[k..], f)
    {
      assert items == items[..k] + items[k..];
      KeepDefinedAppend(items[..k], items[k..], f);
    }
  }

  /** Conversely, every block whose two texts are both non-empty is kept:
      block `k` contributes its pair, between the pairs of the blocks
      before and after it, and contributes nothing otherwise. */
  lemma PairKeptAt(items: seq<Element>, k: nat, firstSelector: string, secondSelector: string)
    requires k < |items|
    ensures var a := TrimmedText(ElementQuerySelector(items[k], firstSelector));
      var b := TrimmedText(ElementQuerySelector(items[k], secondSelector));
      KeepDefined(items, i => PairIn(i, firstSelector, secondSelector))
      == KeepDefined(items[..k], i => PairIn(i, firstSelector, secondSelector))
         + (if a.Some? && a.value != "" && b.Some? && b.value != "" then [Pair(a.value, b.value)] else [])
         + KeepDefined(items[k + 1..], i => PairIn(i, firstSelector, secondSelector))
  {
    KeepDefinedAt(items, k, i => PairIn(i, firstSelector, secondSelector));
  }

  /** extractCompanyInfoGeneric (content.js): trimmed text of the first deep
      match, or null when absent or empty. */
  function CompanyInfo(doc: Root): (r: Option<string>)
    ensures var m := DeepMatches(doc, CompanyInfoSelector);
      r.Some? <==> m != [] && m[0].innerText.Some? && Trim(m[0].innerText.value) != ""
    ensures var m := DeepMatches(doc, CompanyInfoSelector);
      r.Some? ==> r.value == Trim(m[0].innerText.value) && r.value != ""
  {
    var t := TrimmedText(First(DeepMatches(doc, CompanyInfoSelector)));
    if t.Some? && t.value != "" then t else None
  }

  function TabEntry(el: Element): Option<TabLink> {
    var text := TrimmedText(Some(el));
    if text.Some? && text.value != "" && Utf16Length(text.value) < 30 then
      Some(TabLink(text.value, if "href" in el.attributes then Some(el.attributes["href"]) else None, el.key))
    else None
  }

  /** getTabs (content.js) */
  function Tabs(doc: Root): seq<TabLink> {
    KeepDefined(DeepMatches(doc, TabSelector), TabEntry)
  }

  /** getTabs keeps only tabs whose trimmed text is non-empty and shorter
      than 30 UTF-16 code units, each one a deep match of the tab selector,
      in deep-search order. */
  lemma TabsShortAndNonEmpty(doc: Root)
    ensures forall t <- Tabs(doc) :: t.text != "" && Utf16Length(t.text) < 30
    ensures forall t <- Tabs(doc) :: exists el <- DeepMatches(doc, TabSelector) :: el.key == t.key
  {
    forall t <- Tabs(doc) ensures t.text != "" && Utf16Length(t.text) < 30
      && exists el <- DeepMatches(doc, TabSelector) :: el.key == t.key
    {
      var el :| el in DeepMatches(doc, TabSelector) && TabEntry(el) == Some(t);
    }
  }

  /** `deepQuerySelector(document, s)?.innerText || null` */
  function HeaderText(doc: Root, selector: string): (r: Option<string>)
    ensures var m := DeepMatches(doc, selector);
      r.Some? <==> m != [] && m[0].innerText.Some? && m[0].innerText.value != ""
    ensures r.Some? ==> r.value == DeepMatches(doc, selector)[0].innerText.value
  {
    var found := First(DeepMatches(doc, selector));
    if found.Some? && found.value.innerText.Some? && found.value.innerText.value != "" then found.value.innerText
    else None
  }

  /** `deepQuerySelector(document, s)?.dataset.symbol || null` */
  function HeaderSymbol(doc: Root, selector: string): (r: Option<string>)
    ensures var m := DeepMatches(doc, selector);
      r.Some? <==> m != [] && "data-symbol" in m[0].attributes && m[0].attributes["data-symbol"] != ""
    ensures r.Some? ==> r.value == DeepMatches(doc, selector)[0].attributes["data-symbol"]
  {
    var found := First(DeepMatches(doc, selector));
    if found.Some? && "data-symbol" in found.value.attributes && found.value.attributes["data-symbol"] != "" then
      Some(found.value.attributes["data-symbol"])
    else None
  }

  datatype PageSnapshot = PageSnapshot(
    symbolFull: Option<string>,
    symbolCode: Option<string>,
    lastPrice: Option<string>,
    currency: Option<string>,
    change: Option<string>,
    changePercent: Option<string>,
    marketStatus: Option<string>,
    lastUpdate: Option<string>,
    tabs: seq<TabLink>,
    keyData: seq<Pair>,
    companyInfo: Option<string>,
    faq: seq<Pair>,
    timestamp: int)

  /** What the page agent answers: `{success: true}`, a snapshot, or
      `{error: message}`. */
  datatype ContentReply = Ack | Snapshot(data: PageSnapshot) | Failure(error: string)

  /** extractTradingViewData (content.js). `hostFault` is an exception the
      host DOM raises while the extractors run; `now` is `Date.now()`. An
      exception yields one `{error}` payload and no partial data. */
  function ExtractTradingViewData(doc: Root, hostFault: Option<string>, now: int): (r: ContentReply)
    ensures r.Failure? <==> hostFault.Some?
    ensures r.Failure? ==> r.error == hostFault.value
    ensures r.Snapshot? ==> (r.data.tabs == Tabs(doc) && r.data.keyData == KeyData(doc)
      && r.data.faq == Faq(doc) && r.data.companyInfo == CompanyInfo(doc) && r.data.timestamp == now)
    ensures r.Snapshot? ==> (r.data.symbolFull == HeaderText(doc, TitleSelector)
      && r.data.symbolCode == HeaderSymbol(doc, TickerSelector)
      && r.data.lastPrice == HeaderText(doc, LastPriceSelector)
      && r.data.currency == HeaderText(doc, CurrencySelector)
      && r.data.change == HeaderText(doc, ChangeSelector)
      && r.data.changePercent == HeaderText(doc, ChangePercentSelector)
      && r.data.marketStatus == HeaderText(doc, MarketStatusSelector)
      && r.data.lastUpdate == HeaderText(doc, LastUpdateSelector))
  {
    if hostFault.Some? then Failure(hostFault.value)
    else Snapshot(PageSnapshot(
      HeaderText(doc, TitleSelector),
      HeaderSymbol(doc, TickerSelector),
      HeaderText(doc, LastPriceSelector),
      HeaderText(doc, CurrencySelector),
      HeaderText(doc, ChangeSelector),
      HeaderText(doc, ChangePercentSelector),
      HeaderText(doc, MarketStatusSelector),
      HeaderText(doc, LastUpdateSelector),
      Tabs(doc), KeyData(doc), CompanyInfo(doc), Faq(doc), now))
  }

  // ---------------------------------------------------------------------
  // Page actions and the message switch
  // ---------------------------------------------------------------------

  datatype ScrollTarget = Window | ElementTarget(key: nat)

  /** What the page observes of an action. */
  datatype PageEvent =
    | Clicked(key: nat)
    | Focused(key: nat)
    | InputDispatched(key: nat)
    | ChangeDispatched(key: nat)
    | Scrolled(target: ScrollTarget, dy: Value)

  /** The effect one EXECUTE_ACTION request has on the page. */
  datatype Effect =
    | NoEffect
    | ClickOn(key: nat)
    | TypeInto(key: nat, text: Value)
    | ScrollBy(target: ScrollTarget, amount: Value)

  function Target(doc: Root, action: Value): Option<Element> {
    First(DeepMatches(doc, ToString(Get(action, "selector"))))
  }

  /** The effect of executeAction (content.js) on a request. An effect
      happens only for a present action of type click, type or scroll; click
      and type act on the first deep match of the selector and do nothing
      without one; a click on a non-HTML match (one without `innerText`,
      such as an SVG icon) throws, since `click()` exists only on HTML
      elements, and the function's catch leaves no effect; type writes
      `action.text`; scroll targets the window when no selector is given
      and scrolls by 100 when no amount is. */
  function ActionEffect(doc: Root, request: Value): (r: Effect)
    ensures r != NoEffect ==> (Truthy(Get(request, "action"))
      && Get(Get(request, "action"), "type") in {Str("click"), Str("type"), Str("scroll")})
    ensures r.ClickOn? <==> (Truthy(Get(request, "action"))
      && Get(Get(request, "action"), "type") == Str("click") && Target(doc, Get(request, "action")).Some?
      && Target(doc, Get(request, "action")).value.innerText.Some?)
    ensures r.TypeInto? <==> (Truthy(Get(request, "action"))
      && Get(Get(request, "action"), "type") == Str("type") && Target(doc, Get(request, "action")).Some?)
    ensures r.ClickOn? || r.TypeInto? ==> r.key == Target(doc, Get(request, "action")).value.key
    ensures r.TypeInto? ==> r.text == Get(Get(request, "action"), "text")
    ensures r.ScrollBy? ==> r.amount == (if Truthy(Get(Get(request, "action"), "amount"))
                                          then Get(Get(request, "action"), "amount") else Num(100))
    ensures r.ScrollBy? ==> (r.target == Window <==> !Truthy(Get(Get(request, "action"), "selector")))
    ensures r.ScrollBy? <==> (Truthy(Get(request, "action"))
      && Get(Get(request, "action"), "type") == Str("scroll")
      && (!Truthy(Get(Get(request, "action"), "selector")) || Target(doc, Get(request, "action")).Some?))
    ensures r.ScrollBy? && r.target.ElementTarget? ==> r.target.key == Target(doc, Get(request, "action")).value.key
  {
    var action := Get(request, "action");
    if !Truthy(action) then NoEffect
    else
      var kind := Get(action, "type");
      if kind == Str("click") then
        (match Target(doc, action)
         case Some(el) => if el.innerText.Some? then ClickOn(el.key) else NoEffect
         case None => NoEffect)
      else if kind == Str("type") then
        (match Target(doc, action) case Some(el) => TypeInto(el.key, Get(action, "text")) case None => NoEffect)
      else if kind == Str("scroll") then
        var amount := Or(Get(action, "amount"), Num(100));
        if !Truthy(Get(action, "selector")) then ScrollBy(Window, amount)
        else (match Target(doc, action) case Some(el) => ScrollBy(ElementTarget(el.key), amount) case None => NoEffect)
      else NoEffect
  }

  function EventsOf(e: Effect): seq<PageEvent> {
    match e
    case NoEffect => []
    case ClickOn(k) => [Clicked(k)]
    case TypeInto(k, _) => [Focused(k), InputDispatched(k), ChangeDispatched(k)]
    case ScrollBy(t, dy) => [Scrolled(t, dy)]
  }

  /** The page the content script runs in: its document, the values of its
      form controls, and the events actions have caused so far. */
  class Page {
    const document: Root
    var values: map<nat, Value>
    var events: seq<PageEvent>

    constructor (document: Root)
      ensures this.document == document && values == map[] && events == []
    {
      this.document := document;
      values := map[];
      events := [];
    }

    /** executeAction (content.js) */
    method ExecuteAction(request: Value)
      modifies this
      ensures events == old(events) + EventsOf(ActionEffect(document, request))
      ensures values == (match ActionEffect(document, request)
                         case TypeInto(k, text) => old(values)[k := text]
                         case _ => old(values))
    {
      var action := Get(request, "action");
      if !Truthy(action) {
        return;
      }
      var kind := Get(action, "type");
      if kind == Str("click") {
        var el := DeepQuerySelector(Some(document), ToString(Get(action, "selector")));
        // click() is an HTMLElement method: on any other element it throws,
        // and the catch swallows the error
        if el.Some? && el.value.innerText.Some? {
          events := events + [Clicked(el.value.key)];
        }
      } else if kind == Str("type") {
        var el := DeepQuerySelector(Some(document), ToString(Get(action, "selector")));
        if el.Some? {
          var k := el.value.key;
          events := events + [Focused(k)];
          values := values[k := Get(action, "text")];
          events := events + [InputDispatched(k), ChangeDispatched(k)];
        }
      } else if kind == Str("scroll") {
        var target: Option<ScrollTarget>;
        if Truthy(Get(action, "selector")) {
          var el := DeepQuerySelector(Some(document), ToString(Get(action, "selector")));
          target := if el.Some? then Some(ElementTarget(el.value.key)) else None;
        } else {
          target := Some(Window);
        }
        if target.Some? {
          events := events + [Scrolled(target.value, Or(Get(action, "amount"), Num(100)))];
        }
      }
    }

    /** The content script's message listener (content.js): PING is always
        acknowledged, EXTRACT_PAGE_DATA answers with a snapshot or one error,
        EXECUTE_ACTION and unknown types get no answer. */
    method HandleMessage(request: Value, hostFault: Option<string>, now: int) returns (reply: Option<ContentReply>)
      modifies this
      ensures Get(request, "type") == Str("PING") ==> reply == Some(Ack)
      ensures Get(request, "type") == Str("EXTRACT_PAGE_DATA") ==>
        reply == Some(ExtractTradingViewData(document, hostFault, now))
      ensures Get(request, "type") !in {Str("PING"), Str("EXTRACT_PAGE_DATA")} ==> reply.None?
      ensures Get(request, "type") == Str("EXECUTE_ACTION") ==>
        events == old(events) + EventsOf(ActionEffect(document, request))
      ensures Get(request, "type") == Str("EXECUTE_ACTION") ==>
        values == (match ActionEffect(document, request)
                   case TypeInto(k, text) => old(values)[k := text]
                   case _ => old(values))
      ensures Get(request, "type") != Str("EXECUTE_ACTION") ==> unchanged(this)
    {
      var kind := Get(request, "type");
      if kind == Str("PING") {
        reply := Some(Ack);
      } else if kind == Str("EXTRACT_PAGE_DATA") {
        reply := Some(ExtractTradingViewData(document, hostFault, now));
      } else if kind == Str("EXECUTE_ACTION") {
        ExecuteAction(request);
        reply := None;
      } else {
        reply := None;
      }
    }
  }
}
