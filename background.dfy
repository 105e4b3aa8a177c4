/** background.js: the relay coordinator. It decides which tab a request
    targets and whether that tab is eligible, makes sure the page agent is
    present before forwarding to it, and turns the language-model API's
    answer into a reply. Every chrome.* and fetch outcome is an input. */
module Background {
  import opened Js

  const TargetDomain := "tradingview.com"

  const NoActiveTab := "No active tab found"
  const ActionsOnlyOnTradingView :=
    "Actions can only be executed on TradingView.com. Please navigate to TradingView and try again."
  const OnlyWorksOnTradingView :=
    "This extension only works on TradingView.com. Please navigate to TradingView and try again."
  const ActionFailed := "Failed to execute action. Please refresh the TradingView page and try again."
  const NavigateToTradingView := "Please navigate to TradingView.com to use this extension."
  const ContentScriptNotLoaded := "Content script not loaded. Please refresh the TradingView page and try again."
  const ExtractFailed :=
    "Failed to extract page data from TradingView. Make sure the page has loaded completely and try refreshing if needed."
  const InjectionFailed := "Failed to load content script on the page"
  const NoConnection := "Could not establish connection"
  const NoReceiver := "Receiving end does not exist"
  const MissingApiKey :=
    "API key not configured. Please set your Google Gemini API key in the extension settings."
  const AnalysisFailedPrefix := "Failed to analyze page: "
  const InvalidGeminiResponse := "Invalid response from Gemini API"

  /** A browser tab as chrome.tabs reports it. */
  datatype Tab = Tab(id: Value, url: Value)

  /** The outcomes of the host calls one request may make. */
  datatype Host = Host(
    lookup: Settled<Tab>,        // chrome.tabs.get(request.tabId)
    active: Settled<seq<Tab>>,   // chrome.tabs.query({active: true, currentWindow: true})
    recheck: Settled<Tab>,       // chrome.tabs.get(tabId) before extraction
    ping: Settled<Value>,        // the PING round trip to the page agent
    inject: Settled<Value>,      // chrome.scripting.executeScript of content.js
    send: Settled<Value>)        // the round trip of the forwarded request

  /** A call the relay makes into a tab, in the order made. */
  datatype PageCall = Ping(tab: Value) | Inject(tab: Value) | Send(tab: Value, message: Value)

  // ---------------------------------------------------------------------
  // Eligibility
  // ---------------------------------------------------------------------

  /** isTradingViewTab (background.js). `hostOf` is the URL parser: the
      hostname of `new URL(s)`, or None where the constructor throws. */
  predicate IsTradingViewTab(url: Value, hostOf: string -> Option<string>) {
    Truthy(url) && match hostOf(ToString(url)) case Some(h) => Includes(h, TargetDomain) case None => false
  }

  /** A missing or empty URL is never eligible, an unparsable one is
      ineligible, and otherwise a URL is eligible exactly when its hostname
      contains "tradingview.com". */
  lemma EligibleIffHostnameContainsDomain(url: Value, hostOf: string -> Option<string>)
    ensures var host := hostOf(ToString(url));
      IsTradingViewTab(url, hostOf) <==>
        Truthy(url) && host.Some? && exists i :: OccursAt(host.value, TargetDomain, i)
  {
    var host := hostOf(ToString(url));
    if Truthy(url) && host.Some? {
      IncludesIffOccurs(host.value, TargetDomain);
    }
  }

  // ---------------------------------------------------------------------
  // Tab resolution and gating (shared by EXECUTE_ACTION and GET_PAGE_DATA)
  // ---------------------------------------------------------------------

  /** The tab id and tab a request resolves to: an explicit `tabId` first
      (no tab if the lookup fails), else the sender's own tab, else the
      first tab of the active-tab query (no tab if it fails or is empty). */
  function Resolution(request: Value, senderTab: Option<Tab>, host: Host): (Value, Option<Tab>) {
    if Truthy(Get(request, "tabId")) then
      (if host.lookup.Resolved? then (Get(request, "tabId"), Some(host.lookup.value)) else (Null, None))
    else if senderTab.Some? && Truthy(senderTab.value.id) then
      (senderTab.value.id, senderTab)
    else if host.active.Resolved? && |host.active.value| > 0 then
      (host.active.value[0].id, Some(host.active.value[0]))
    else (Null, None)
  }

  /** An explicit `tabId` decides alone: the sender's tab and the active tab
      are never consulted, even when the lookup fails. */
  lemma ExplicitTabIdHasNoFallback(request: Value, s1: Option<Tab>, s2: Option<Tab>, h1: Host, h2: Host)
    requires Truthy(Get(request, "tabId")) && h1.lookup == h2.lookup
    ensures Resolution(request, s1, h1) == Resolution(request, s2, h2)
    ensures h1.lookup.Rejected? ==> Resolution(request, s1, h1).1.None?
  {
  }

  /** Without an explicit id, a sender tab with an id wins over the active
      tab, whatever the active-tab query returns. */
  lemma SenderTabBeforeActiveTab(request: Value, senderTab: Tab, h1: Host, h2: Host)
    requires !Truthy(Get(request, "tabId")) && Truthy(senderTab.id)
    ensures Resolution(request, Some(senderTab), h1) == Resolution(request, Some(senderTab), h2)
    ensures Resolution(request, Some(senderTab), h1) == (senderTab.id, Some(senderTab))
  {
  }

  /** The tab-resolution chain of handleExecuteAction and handleGetPageData
      (background.js): locals `tabId` and `targetTab` start null and are
      set by the first branch of the if/else chain that applies. */
  method ResolveTarget(request: Value, senderTab: Option<Tab>, host: Host) returns (tabId: Value, targetTab: Option<Tab>)
    ensures (tabId, targetTab) == Resolution(request, senderTab, host)
  {
    tabId := Null;
    targetTab := None;
    if Truthy(Get(request, "tabId")) {
      if host.lookup.Resolved? {
        targetTab := Some(host.lookup.value);
        tabId := Get(request, "tabId");
      }
    } else if senderTab.Some? && Truthy(senderTab.value.id) {
      targetTab := senderTab;
      tabId := senderTab.value.id;
    } else {
      if host.active.Resolved? && |host.active.value| > 0 {
        var activeTab := host.active.value[0];
        targetTab := Some(activeTab);
        tabId := activeTab.id;
      }
    }
  }

  /** `tabId && targetTab && targetTab.url` */
  predicate HasTarget(tabId: Value, targetTab: Option<Tab>) {
    Truthy(tabId) && targetTab.Some? && Truthy(targetTab.value.url)
  }

  // ---------------------------------------------------------------------
  // Presence assurance and forwarding
  // ---------------------------------------------------------------------

  /** The calls of the presence check: a ping, then an injection only when
      the ping failed. */
  function PresenceCalls(tabId: Value, ping: Settled<Value>): seq<PageCall> {
    if ping.Resolved? then [Ping(tabId)] else [Ping(tabId), Inject(tabId)]
  }

  /** The page agent is present after the presence check: it answered the
      ping, or it was injected. */
  predicate AgentPresent(host: Host) {
    host.ping.Resolved? || host.inject.Resolved?
  }

  /** ensureContentScriptLoaded (background.js): ping first; only when the
      ping fails, inject once; a failed injection is an error. The result
      is None on success or the message of the error thrown. */
  method EnsureContentScriptLoaded(tabId: Value, ping: Settled<Value>, inject: Settled<Value>)
    returns (error: Option<string>, calls: seq<PageCall>)
    ensures calls == PresenceCalls(tabId, ping)
    ensures Inject(tabId) in calls <==> ping.Rejected?
    ensures error.Some? <==> ping.Rejected? && inject.Rejected?
    ensures error.Some? ==> error.value == InjectionFailed
  {
    calls := [Ping(tabId)];
    error := None;
    if ping.Rejected? {
      calls := calls + [Inject(tabId)];
      if inject.Rejected? {
        error := Some(InjectionFailed);
      }
    }
  }

  /** The structured request forwarded to the page agent. */
  function ForwardedMessage(request: Value): Value {
    Obj(map["type" := Get(request, "type"),
            "action" := Or(Get(request, "action"), Null),
            "data" := Or(Get(request, "data"), Null)])
  }

  /** forwardToContentScript (background.js): the request reaches the page
      only after the presence check succeeds; any failure is rethrown. */
  method ForwardToContentScript(request: Value, tabId: Value, host: Host)
    returns (error: Option<string>, calls: seq<PageCall>)
    ensures calls == PresenceCalls(tabId, host.ping) + (if AgentPresent(host) then [Send(tabId, ForwardedMessage(request))] else [])
    ensures Send(tabId, ForwardedMessage(request)) in calls <==> AgentPresent(host)
    ensures 1 <= |calls| <= 3 && calls[0] == Ping(tabId)
    ensures error.None? <==> AgentPresent(host) && host.send.Resolved?
  {
    var loadError, loadCalls := EnsureContentScriptLoaded(tabId, host.ping, host.inject);
    calls := loadCalls;
    if loadError.Some? {
      return loadError, calls;
    }
    calls := calls + [Send(tabId, ForwardedMessage(request))];
    error := if host.send.Rejected? then Some(host.send.reason) else None;
  }

  // ---------------------------------------------------------------------
  // EXECUTE_ACTION and GET_PAGE_DATA
  // ---------------------------------------------------------------------

  /** What handleExecuteAction (background.js) answers and which calls it
      makes into the tab: no target and an ineligible target are refused
      without touching a tab; for an eligible target the presence check
      runs, the action is forwarded only when the agent is present, and
      the answer is success exactly when the forwarded request came back. */
  predicate ActionAnswered(request: Value, senderTab: Option<Tab>, host: Host, hostOf: string -> Option<string>,
                           reply: Value, calls: seq<PageCall>) {
    var (id, tab) := Resolution(request, senderTab, host);
    && (!HasTarget(id, tab) ==> reply == ErrorObj(NoActiveTab) && calls == [])
    && (HasTarget(id, tab) && !IsTradingViewTab(tab.value.url, hostOf) ==>
          reply == ErrorObj(ActionsOnlyOnTradingView) && calls == [])
    && (HasTarget(id, tab) && IsTradingViewTab(tab.value.url, hostOf) ==>
          && calls == PresenceCalls(id, host.ping) + (if AgentPresent(host) then [Send(id, ForwardedMessage(request))] else [])
          && reply == (if AgentPresent(host) && host.send.Resolved? then SuccessObj() else ErrorObj(ActionFailed)))
  }

  /** handleExecuteAction (background.js) */
  method HandleExecuteAction(request: Value, senderTab: Option<Tab>, host: Host, hostOf: string -> Option<string>)
    returns (reply: Value, calls: seq<PageCall>)
    ensures ActionAnswered(request, senderTab, host, hostOf, reply, calls)
    ensures var (id, tab) := Resolution(request, senderTab, host);
      && (calls != [] ==> HasTarget(id, tab) && IsTradingViewTab(tab.value.url, hostOf) && calls[0] == Ping(id))
      && (reply == SuccessObj() <==>
            HasTarget(id, tab) && IsTradingViewTab(tab.value.url, hostOf) && AgentPresent(host) && host.send.Resolved?)
      && (reply == SuccessObj() ==> Send(id, ForwardedMessage(request)) in calls)
      && (HasTarget(id, tab) && IsTradingViewTab(tab.value.url, hostOf) ==>
            (Send(id, ForwardedMessage(request)) in calls <==> AgentPresent(host)))
    ensures Truthy(Get(request, "tabId")) && host.lookup.Rejected? ==> reply == ErrorObj(NoActiveTab) && calls == []
    ensures reply in {SuccessObj(), ErrorObj(NoActiveTab), ErrorObj(ActionsOnlyOnTradingView), ErrorObj(ActionFailed)}
  {
    var tabId, targetTab := ResolveTarget(request, senderTab, host);
    calls := [];
    if !HasTarget(tabId, targetTab) {
      return ErrorObj(NoActiveTab), calls;
    }
    if !IsTradingViewTab(targetTab.value.url, hostOf) {
      assert "error" !in SuccessObj().fields;
      return ErrorObj(ActionsOnlyOnTradingView), calls;
    }
    var error;
    error, calls := ForwardToContentScript(request, tabId, host);
    assert "error" !in SuccessObj().fields && "error" in ErrorObj(ActionFailed).fields;
    reply := if error.None? then SuccessObj() else ErrorObj(ActionFailed);
  }

  /** The catch branch of getPageDataFromContentScript (background.js). */
  function ExtractionErrorReply(message: string): Value {
    if Includes(message, NoConnection) || Includes(message, NoReceiver) then ErrorObj(ContentScriptNotLoaded)
    else ErrorObj(ExtractFailed)
  }

  /** A pattern whose first character never occurs in `s` is not found. */
  lemma {:induction false} NotIncludedWithoutFirstChar(s: string, p: string)
    requires p != [] && p[0] !in s
    ensures !Includes(s, p)
    decreases |s|
  {
    if s != [] {
      NotIncludedWithoutFirstChar(s[1..], p);
    }
  }

  /** The injection-failure message has no capital C, the first letter of
      the connection error ... */
  lemma InjectionMessageHasNoCapitalC()
    ensures NoConnection[0] == 'C' && 'C' !in InjectionFailed
  {
  }

  /** ... and no capital R, the first letter of the receiver error. */
  lemma InjectionMessageHasNoCapitalR()
    ensures NoReceiver[0] == 'R' && 'R' !in InjectionFailed
  {
  }

  /** The three refusals of the extraction path are distinct answers. */
  lemma ExtractionRefusalsDistinct()
    ensures ErrorObj(ExtractFailed) != ErrorObj(ContentScriptNotLoaded)
    ensures ErrorObj(NavigateToTradingView) != ErrorObj(ContentScriptNotLoaded)
  {
    assert |ExtractFailed| != |ContentScriptNotLoaded|;
    assert ErrorObj(ExtractFailed).fields["error"] != ErrorObj(ContentScriptNotLoaded).fields["error"];
    assert |NavigateToTradingView| != |ContentScriptNotLoaded|;
    assert ErrorObj(NavigateToTradingView).fields["error"] != ErrorObj(ContentScriptNotLoaded).fields["error"];
  }

  /** A failed injection is reported as an extraction failure, not as a
      missing content script: its message names neither connection error. */
  lemma InjectionFailureReadsAsExtractFailure()
    ensures !Includes(InjectionFailed, NoConnection) && !Includes(InjectionFailed, NoReceiver)
  {
    InjectionMessageHasNoCapitalC();
    InjectionMessageHasNoCapitalR();
    NotIncludedWithoutFirstChar(InjectionFailed, NoConnection);
    NotIncludedWithoutFirstChar(InjectionFailed, NoReceiver);
  }

  /** The request for the page data sent to the page agent. */
  const ExtractRequest := Obj(map["type" := Str("EXTRACT_PAGE_DATA")])

  /** What getPageDataFromContentScript (background.js) answers for tab
      `tabId` and which calls it makes into it: a failed lookup goes
      through the extraction-error mapping and an ineligible tab is refused,
      both without touching the tab; otherwise the presence check runs, a
      failed injection reads as an extraction failure, and when the agent is
      present the page data is requested and its answer (or the mapped
      error) is the reply. */
  predicate PageDataAnswered(tabId: Value, host: Host, hostOf: string -> Option<string>,
                             reply: Value, calls: seq<PageCall>) {
    && (host.recheck.Rejected? ==> reply == ExtractionErrorReply(host.recheck.reason) && calls == [])
    && (host.recheck.Resolved? && !IsTradingViewTab(host.recheck.value.url, hostOf) ==>
          reply == ErrorObj(NavigateToTradingView) && calls == [])
    && (host.recheck.Resolved? && IsTradingViewTab(host.recheck.value.url, hostOf) ==>
          && calls == PresenceCalls(tabId, host.ping) + (if AgentPresent(host) then [Send(tabId, ExtractRequest)] else [])
          && reply == (if !AgentPresent(host) then ErrorObj(ExtractFailed)
                       else if host.send.Resolved? then host.send.value
                       else ExtractionErrorReply(host.send.reason)))
  }

  /** getPageDataFromContentScript (background.js): look the tab up again,
      re-check eligibility, ensure the agent, then ask it for the page data
      and pass its answer on unchanged. */
  method GetPageDataFromContentScript(tabId: Value, host: Host, hostOf: string -> Option<string>)
    returns (reply: Value, calls: seq<PageCall>)
    ensures PageDataAnswered(tabId, host, hostOf, reply, calls)
    ensures calls != [] ==> host.recheck.Resolved? && IsTradingViewTab(host.recheck.value.url, hostOf)
    ensures calls != [] ==> calls[0] == Ping(tabId)
    ensures Send(tabId, ExtractRequest) in calls <==>
      host.recheck.Resolved? && IsTradingViewTab(host.recheck.value.url, hostOf) && AgentPresent(host)
    ensures host.recheck.Resolved? && host.ping.Rejected? && host.inject.Rejected? ==>
      reply != ErrorObj(ContentScriptNotLoaded)
    ensures Send(tabId, ExtractRequest) in calls ==>
      reply == (if host.send.Resolved? then host.send.value else ExtractionErrorReply(host.send.reason))
  {
    calls := [];
    if host.recheck.Rejected? {
      return ExtractionErrorReply(host.recheck.reason), calls;
    }
    var tab := host.recheck.value;
    ExtractionRefusalsDistinct();
    if !IsTradingViewTab(tab.url, hostOf) {
      return ErrorObj(NavigateToTradingView), calls;
    }
    reply, calls := ExtractFromAgent(tabId, host);
  }

  /** The eligible-tab part of getPageDataFromContentScript (background.js):
      the presence check, then the extraction request; a failed injection
      reads as an extraction failure, and the agent's answer, or the
      mapped error of the request, is the reply. */
  method ExtractFromAgent(tabId: Value, host: Host) returns (reply: Value, calls: seq<PageCall>)
    ensures calls == PresenceCalls(tabId, host.ping) + (if AgentPresent(host) then [Send(tabId, ExtractRequest)] else [])
    ensures reply == (if !AgentPresent(host) then ErrorObj(ExtractFailed)
                      else if host.send.Resolved? then host.send.value
                      else ExtractionErrorReply(host.send.reason))
  {
    var error;
    error, calls := EnsureContentScriptLoaded(tabId, host.ping, host.inject);
    if error.Some? {
      InjectionFailureReadsAsExtractFailure();
      return ExtractionErrorReply(error.value), calls;
    }
    calls := calls + [Send(tabId, ExtractRequest)];
    reply := if host.send.Resolved? then host.send.value else ExtractionErrorReply(host.send.reason);
  }

  /** What handleGetPageData (background.js) answers: no target and an
      ineligible target are refused without touching a tab, and an
      eligible target gets what getPageDataFromContentScript answers for
      the resolved id. */
  predicate PageDataRequestAnswered(request: Value, senderTab: Option<Tab>, host: Host, hostOf: string -> Option<string>,
                                    reply: Value, calls: seq<PageCall>) {
    var (id, tab) := Resolution(request, senderTab, host);
    && (!HasTarget(id, tab) ==> reply == ErrorObj(NoActiveTab) && calls == [])
    && (HasTarget(id, tab) && !IsTradingViewTab(tab.value.url, hostOf) ==>
          reply == ErrorObj(OnlyWorksOnTradingView) && calls == [])
    && (HasTarget(id, tab) && IsTradingViewTab(tab.value.url, hostOf) ==>
          PageDataAnswered(id, host, hostOf, reply, calls))
  }

  /** handleGetPageData (background.js) */
  method HandleGetPageData(request: Value, senderTab: Option<Tab>, host: Host, hostOf: string -> Option<string>)
    returns (reply: Value, calls: seq<PageCall>)
    ensures PageDataRequestAnswered(request, senderTab, host, hostOf, reply, calls)
    ensures var (id, tab) := Resolution(request, senderTab, host);
      calls != [] ==> HasTarget(id, tab) && IsTradingViewTab(tab.value.url, hostOf) && calls[0] == Ping(id)
    ensures Truthy(Get(request, "tabId")) && host.lookup.Rejected? ==> reply == ErrorObj(NoActiveTab) && calls == []
  {
    var tabId, targetTab := ResolveTarget(request, senderTab, host);
    calls := [];
    if !HasTarget(tabId, targetTab) {
      return ErrorObj(NoActiveTab), calls;
    }
    if !IsTradingViewTab(targetTab.value.url, hostOf) {
      return ErrorObj(OnlyWorksOnTradingView), calls;
    }
    reply, calls := GetPageDataFromContentScript(tabId, host, hostOf);
  }

  // ---------------------------------------------------------------------
  // Parsing the model's answer
  // ---------------------------------------------------------------------

  /** The first position of `c` in `s`. */
  function IndexOf(s: string, c: char): (r: Option<nat>)
    ensures r.Some? ==> r.value < |s| && s[r.value] == c && forall k :: 0 <= k < r.value ==> s[k] != c
    ensures r.None? ==> forall k :: 0 <= k < |s| ==> s[k] != c
  {
    if s == [] then None
    else if s[0] == c then Some(0)
    else match IndexOf(s[1..], c)
      case None => None
      case Some(i) => Some(i + 1)
  }

  /** The last position of `c` in `s`. */
  function LastIndexOf(s: string, c: char): (r: Option<nat>)
    ensures r.Some? ==> r.value < |s| && s[r.value] == c && forall k :: r.value < k < |s| ==> s[k] != c
    ensures r.None? ==> forall k :: 0 <= k < |s| ==> s[k] != c
  {
    if s == [] then None
    else if s[|s| - 1] == c then Some(|s| - 1)
    else LastIndexOf(s[..|s| - 1], c)
  }

  /** `text[i..j]` is a match of the regular expression /\{[\s\S]*\}/:
      an opening brace, anything, and a later closing brace. */
  ghost predicate BraceMatch(text: string, i: int, j: int) {
    0 <= i && i + 2 <= j <= |text| && text[i] == '{' && text[j - 1] == '}'
  }

  /** The span `[start, end)` that `text.match(/\{[\s\S]*\}/)` returns:
      from the first opening brace to the last closing brace after it. */
  function BraceSpan(text: string): Option<(nat, nat)> {
    match IndexOf(text, '{')
    case None => None
    case Some(i) =>
      match LastIndexOf(text, '}')
      case Some(j) => if i < j then Some((i, j + 1)) else None
      case None => None
  }

  /** The span is a match, there is one exactly when some match exists,
      and it contains every other match: the leftmost match with the
      greediest body, as the regular-expression engine picks it. */
  lemma BraceSpanIsOutermostMatch(text: string)
    ensures BraceSpan(text).None? <==> forall i, j :: !BraceMatch(text, i, j)
    ensures BraceSpan(text).Some? ==>
      var (i, j) := BraceSpan(text).value;
      BraceMatch(text, i, j) && forall i', j' :: BraceMatch(text, i', j') ==> i <= i' && j' <= j
  {
    var open := IndexOf(text, '{');
    var close := LastIndexOf(text, '}');
    forall i', j' | BraceMatch(text, i', j')
      ensures open.Some? && close.Some? && open.value <= i' < j' - 1 <= close.value
    {
      assert text[i'] == '{' && text[j' - 1] == '}';
    }
    if open.Some? && close.Some? && open.value < close.value {
      assert BraceMatch(text, open.value, close.value + 1);
    }
  }

  /** safeParseJSON (background.js): the whole text as JSON if it parses,
      else the outermost brace span if that parses, else null. `parse` is
      `JSON.parse`, None where it throws. */
  function SafeParseJson(text: string, parse: string -> Option<Value>): (r: Value)
    ensures parse(text).Some? ==> r == parse(text).value
    ensures r == Null || parse(text) == Some(r) || exists i, j :: BraceMatch(text, i, j) && parse(text[i..j]) == Some(r)
    ensures parse(text).None? && (forall i, j :: !BraceMatch(text, i, j)) ==> r == Null
  {
    match parse(text)
    case Some(v) => v
    case None =>
      BraceSpanIsOutermostMatch(text);
      match BraceSpan(text)
      case None => Null
      case Some((i, j)) =>
        BraceSpanIsOutermostMatch(text);
        match parse(text[i..j])
        case Some(v) => v
        case None => Null
  }

  /** When the whole text is not JSON, only the outermost brace match is
      tried: its value if it parses, and null if it does not, even when a
      smaller brace match inside it would parse. */
  lemma SafeParseJsonTriesOnlyOutermostSpan(text: string, parse: string -> Option<Value>, i: nat, j: nat)
    requires parse(text).None?
    requires BraceMatch(text, i, j) && forall i', j' :: BraceMatch(text, i', j') ==> i <= i' && j' <= j
    ensures SafeParseJson(text, parse) == (if parse(text[i..j]).Some? then parse(text[i..j]).value else Null)
  {
    BraceSpanIsOutermostMatch(text);
    var (a, b) := BraceSpan(text).value;
    assert i <= a && b <= j;
  }

  /** A JSON object wrapped in prose or a code fence is recovered: when the
      text around it holds no brace that could widen the match, the
      object is what safeParseJSON returns. */
  lemma SafeParseJsonRecoversWrappedObject(prefix: string, json: string, suffix: string, parse: string -> Option<Value>)
    requires parse(prefix + json + suffix).None? && parse(json).Some?
    requires |json| >= 2 && json[0] == '{' && json[|json| - 1] == '}'
    requires '{' !in prefix && '}' !in suffix
    ensures SafeParseJson(prefix + json + suffix, parse) == parse(json).value
  {
    var text := prefix + json + suffix;
    var a, b := |prefix|, |prefix| + |json|;
    assert text[a] == json[0] && text[b - 1] == json[|json| - 1];
    assert BraceMatch(text, a, b);
    BraceSpanIsOutermostMatch(text);
    var (i, j) := BraceSpan(text).value;
    assert i == a && j == b;
    assert text[a..b] == json;
  }

  /** What the API call's result turned out to be (everything from
      `response.ok` on): the fetch itself may reject, else the response has
      a status, a status text and a body that may or may not parse. */
  datatype FetchOutcome =
    | FetchRejected(reason: string)
    | HttpResponse(status: int, statusText: string, body: Settled<Value>)

  /** `data?.candidates?.[0]?.content?.parts?.[0]?.text` */
  function CandidateText(data: Value): Value {
    Get(At(Get(Get(At(Get(data, "candidates"), 0), "content"), "parts"), 0), "text")
  }

  /** The reply built when the model's text holds no usable JSON. */
  function PlainTextReply(text: string): (r: Value)
    ensures Truthy(r) && Get(r, "response") == Str(Trim(text)) && Get(r, "actions") == Arr([])
      && Get(r, "tradingInsights") == Obj(map[])
  {
    Obj(map["response" := Str(Trim(text)), "actions" := Arr([]), "tradingInsights" := Obj(map[])])
  }

  /** The message of the error thrown for a non-2xx response. */
  function HttpErrorMessage(status: int, statusText: string, errorData: Value): Settled<string> {
    if errorData.Undefined? || errorData.Null? then
      Rejected("Cannot read properties of " + ToString(errorData) + " (reading 'error')")
    else
      var detail := Or(Get(Get(errorData, "error"), "message"), Str(""));
      Resolved("Gemini API error: " + ToString(Num(status)) + " " + statusText + ". " + ToString(detail))
  }

  /** The tail of callGeminiAPI (background.js): the parsed reply, or the
      message of the error it throws. */
  function GeminiReply(fetch: FetchOutcome, parse: string -> Option<Value>): (r: Settled<Value>)
    ensures r.Resolved? ==> Truthy(r.value)
    ensures fetch.FetchRejected? ==> r == Rejected(fetch.reason)
    ensures fetch.HttpResponse? && !(200 <= fetch.status <= 299) ==> r.Rejected?
    ensures fetch.HttpResponse? && 200 <= fetch.status <= 299 && fetch.body.Resolved? && !Truthy(CandidateText(fetch.body.value)) ==>
      r == Rejected(InvalidGeminiResponse)
  {
    match fetch
    case FetchRejected(reason) => Rejected(reason)
    case HttpResponse(status, statusText, body) =>
      if !(200 <= status <= 299) then
        var errorData := if body.Resolved? then body.value else Obj(map[]);
        match HttpErrorMessage(status, statusText, errorData)
        case Resolved(message) => Rejected(message)
        case Rejected(typeError) => Rejected(typeError)
      else if body.Rejected? then Rejected(body.reason)
      else
        var text := CandidateText(body.value);
        if !Truthy(text) then Rejected(InvalidGeminiResponse)
        else if text.Str? then
          var parsed := SafeParseJson(text.s, parse);
          if Truthy(parsed) then Resolved(parsed) else Resolved(PlainTextReply(text.s))
        else
          // a truthy non-string: JSON.parse coerces it; the fallbacks then
          // call string methods it does not have
          match parse(ToString(text))
          case Some(v) => if Truthy(v) then Resolved(v) else Rejected("aiResponse.trim is not a function")
          case None => Rejected("text.match is not a function")
  }

  /** A well-formed answer whose text is JSON for a truthy value is passed
      on as that value; any other text comes back as a plain-text reply
      carrying the trimmed text and no actions. */
  lemma GeminiReplyOfText(status: int, statusText: string, data: Value, text: string, parse: string -> Option<Value>)
    requires 200 <= status <= 299 && CandidateText(data) == Str(text) && text != ""
    ensures var r := GeminiReply(HttpResponse(status, statusText, Resolved(data)), parse);
      && (Truthy(SafeParseJson(text, parse)) ==> r == Resolved(SafeParseJson(text, parse)))
      && (!Truthy(SafeParseJson(text, parse)) ==> r == Resolved(PlainTextReply(text)))
      && (parse(text).Some? && Truthy(parse(text).value) ==> r == Resolved(parse(text).value))
  {
  }

  /** The error message of a non-2xx response names the status and the
      status text, and the API's own message when the body carries one. */
  lemma HttpErrorNamesStatus(status: int, statusText: string, body: Settled<Value>, parse: string -> Option<Value>)
    requires !(200 <= status <= 299)
    requires body.Rejected? || body.value.Obj?
    ensures var r := GeminiReply(HttpResponse(status, statusText, body), parse);
      && r.Rejected?
      && r.reason == "Gemini API error: " + ToString(Num(status)) + " " + statusText + ". "
                     + (if body.Resolved? then ToString(Or(Get(Get(body.value, "error"), "message"), Str(""))) else "")
  {
  }

  // ---------------------------------------------------------------------
  // ANALYZE_PAGE and the dispatcher
  // ---------------------------------------------------------------------

  /** Whether handlePageAnalysis (background.js) reaches the API call for
      the request data: the data destructures, the key is truthy and the
      prompt builder can read the page data. What the page data says is
      not looked at. */
  predicate AnalysisCalled(data: Value) {
    && !(data.Undefined? || data.Null?) && Truthy(Get(data, "apiKey"))
    && !(Get(data, "pageData").Undefined? || Get(data, "pageData").Null?)
  }

  /** What handlePageAnalysis (background.js) answers for the request
      data, and whether it calls the API: missing data fails to
      destructure, a missing key is refused, missing page data fails while
      the prompt is built, and otherwise the API is called and its reply,
      or the error it threw, is the answer. */
  predicate AnalysisAnswered(data: Value, fetch: FetchOutcome, parse: string -> Option<Value>,
                             reply: Value, requested: bool) {
    && ((data.Undefined? || data.Null?) ==>
          reply == ErrorObj(AnalysisFailedPrefix + "Cannot destructure property 'prompt' of 'data' as it is " + ToString(data) + "."))
    && (requested <==> AnalysisCalled(data))
    && (!(data.Undefined? || data.Null?) && !Truthy(Get(data, "apiKey")) ==> reply == ErrorObj(MissingApiKey))
    && (!(data.Undefined? || data.Null?) && Truthy(Get(data, "apiKey"))
        && (Get(data, "pageData").Undefined? || Get(data, "pageData").Null?) ==>
          reply == ErrorObj(AnalysisFailedPrefix + "Cannot read properties of " + ToString(Get(data, "pageData")) + " (reading 'symbol')"))
    && (requested ==>
          reply == (match GeminiReply(fetch, parse)
                    case Resolved(v) => v
                    case Rejected(m) => ErrorObj(AnalysisFailedPrefix + m)))
  }

  /** handlePageAnalysis (background.js): destructure the request data,
      refuse without an API key, otherwise call the API and answer with its
      reply or with the error it threw. `requested` says whether the API
      was called. */
  method HandlePageAnalysis(data: Value, fetch: FetchOutcome, parse: string -> Option<Value>)
    returns (reply: Value, requested: bool)
    ensures AnalysisAnswered(data, fetch, parse, reply, requested)
    ensures Truthy(reply)
  {
    requested := false;
    if data.Undefined? || data.Null? {
      reply := ErrorObj(AnalysisFailedPrefix + "Cannot destructure property 'prompt' of 'data' as it is " + ToString(data) + ".");
      return;
    }
    var pageData := Get(data, "pageData");
    var apiKey := Get(data, "apiKey");
    if !Truthy(apiKey) {
      reply := ErrorObj(MissingApiKey);
      return;
    }
    if pageData.Undefined? || pageData.Null? {
      // the prompt template reads pageData.symbol before any request
      reply := ErrorObj(AnalysisFailedPrefix + "Cannot read properties of " + ToString(pageData) + " (reading 'symbol')");
      return;
    }
    requested := true;
    var result := GeminiReply(fetch, parse);
    reply := match result
      case Resolved(v) => v
      case Rejected(m) => ErrorObj(AnalysisFailedPrefix + m);
  }

  /** The effect of one message on the relay, as the dispatcher reports it. */
  datatype Handled = Handled(reply: Option<Value>, calls: seq<PageCall>, requested: bool)

  /** The onMessage listener (background.js): route by `request.type`;
      unknown types get no reply. */
  method HandleMessage(request: Value, senderTab: Option<Tab>, host: Host, fetch: FetchOutcome,
                       hostOf: string -> Option<string>, parse: string -> Option<Value>)
    returns (handled: Handled)
    ensures var kind := Get(request, "type");
      && (handled.reply.None? <==> kind !in {Str("ANALYZE_PAGE"), Str("EXECUTE_ACTION"), Str("GET_PAGE_DATA")})
      && (handled.requested ==> kind == Str("ANALYZE_PAGE"))
      && (handled.calls != [] ==> kind in {Str("EXECUTE_ACTION"), Str("GET_PAGE_DATA")})
    ensures Get(request, "type") == Str("ANALYZE_PAGE") ==>
      handled.reply.Some? && handled.calls == []
      && AnalysisAnswered(Get(request, "data"), fetch, parse, handled.reply.value, handled.requested)
    ensures Get(request, "type") == Str("EXECUTE_ACTION") ==>
      handled.reply.Some? && ActionAnswered(request, senderTab, host, hostOf, handled.reply.value, handled.calls)
    ensures Get(request, "type") == Str("EXECUTE_ACTION") ==>
      handled.reply.Some? && handled.reply.value in
        {SuccessObj(), ErrorObj(NoActiveTab), ErrorObj(ActionsOnlyOnTradingView), ErrorObj(ActionFailed)}
    ensures Get(request, "type") == Str("GET_PAGE_DATA") ==>
      handled.reply.Some? && PageDataRequestAnswered(request, senderTab, host, hostOf, handled.reply.value, handled.calls)
  {
    var kind := Get(request, "type");
    if kind == Str("ANALYZE_PAGE") {
      var reply, requested := HandlePageAnalysis(Get(request, "data"), fetch, parse);
      handled := Handled(Some(reply), [], requested);
    } else if kind == Str("EXECUTE_ACTION") {
      var reply, calls := HandleExecuteAction(request, senderTab, host, hostOf);
      handled := Handled(Some(reply), calls, false);
    } else if kind == Str("GET_PAGE_DATA") {
      var reply, calls := HandleGetPageData(request, senderTab, host, hostOf);
      handled := Handled(Some(reply), calls, false);
    } else {
      handled := Handled(None, [], false);
    }
  }
}
