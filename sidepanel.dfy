/** sidepanel.js: the chat panel's `TradingAssistant`. It keeps the
    conversation log and a loading flag, consumes a pending quick command
    once, refuses to send without an API key, and turns the relay's answers
    into chat lines and action buttons. Storage, the two input boxes, the
    rendered message list and the messages sent to the relay are fields;
    the relay's answers are parameters. */
module Sidepanel {
  import opened Js
  import Background

  const QuickCommandKey := "quickCommand"
  const ApiKeyKey := "gemini_api_key"
  const ApiKeyHint :=
    "Please enter your Google Gemini API key in the settings below. Get one free at https://makersuite.google.com/app/apikey"
  const LoadingText := "Analyzing page and processing your request..."
  const NoPageData := "No page data available"
  const ActionExecuted := "✅ Action executed"

  datatype Sender = User | Ai | System

  /** An entry of `this.messages` (the timestamp is not modelled). */
  datatype Message = Message(text: Value, sender: Sender)

  /** What the messages container shows, in order: a chat bubble (the
      loading bubble carries the spinner) or a row of action buttons with
      the labels shown and the action each one carries. */
  datatype Shown =
    | Bubble(text: string, sender: Sender, loading: bool)
    | ActionGroup(labels: seq<string>, actions: seq<Value>)

  /** A message sent to the relay, and whether the panel was loading then. */
  datatype Request = Request(message: Value, whileLoading: bool)

  /** `chrome.storage.local.get([key])[key]` */
  function Lookup(storage: map<string, Value>, key: string): Value {
    if key in storage then storage[key] else Undefined
  }

  /** `v?.length > 0` for the values a `length` is read from. */
  predicate LengthPositive(v: Value) {
    match v
    case Str(s) => s != []
    case Arr(items) => |items| > 0
    case Obj(_) => Get(v, "length").Num? && Get(v, "length").n > 0
    case _ => false
  }

  /** `element.textContent = v`: null and undefined clear the text (the
      setter takes a nullable string, and undefined converts to null);
      anything else is converted to a string. */
  function TextContent(v: Value): string {
    if v.Null? || v.Undefined? then "" else ToString(v)
  }

  function UpperAscii(s: string): (r: string)
    ensures |r| == |s|
    ensures forall k :: 0 <= k < |s| ==> r[k] == (if 'a' <= s[k] <= 'z' then (s[k] as int - 32) as char else s[k])
  {
    if s == [] then []
    else [if 'a' <= s[0] <= 'z' then (s[0] as int - 32) as char else s[0]] + UpperAscii(s[1..])
  }

  /** The label of one action button, `${action.type.toUpperCase()}: ${action.description}`,
      or the TypeError building it throws. */
  function ButtonLabel(action: Value): Settled<string> {
    if action.Undefined? || action.Null? then
      Rejected("Cannot read properties of " + ToString(action) + " (reading 'type')")
    else
      var kind := Get(action, "type");
      if kind.Str? then Resolved(UpperAscii(kind.s) + ": " + ToString(Get(action, "description")))
      else if kind.Undefined? || kind.Null? then
        Rejected("Cannot read properties of " + ToString(kind) + " (reading 'toUpperCase')")
      else Rejected("action.type.toUpperCase is not a function")
  }

  /** The labels of `actions.forEach(...)`, which stops at the first throw. */
  function ButtonLabels(actions: seq<Value>): (r: Settled<seq<string>>)
    ensures r.Resolved? <==> forall k :: 0 <= k < |actions| ==> ButtonLabel(actions[k]).Resolved?
    ensures r.Resolved? ==>
      (|r.value| == |actions| && forall k :: 0 <= k < |actions| ==> r.value[k] == ButtonLabel(actions[k]).value)
    ensures r.Rejected? ==>
      exists k :: 0 <= k < |actions| && ButtonLabel(actions[k]) == Rejected(r.reason)
                  && forall j :: 0 <= j < k ==> ButtonLabel(actions[j]).Resolved?
  {
    if actions == [] then Resolved([])
    else match ButtonLabel(actions[0])
      case Rejected(m) => Rejected(m)
      case Resolved(first) =>
        match ButtonLabels(actions[1..])
        case Rejected(m) => Rejected(m)
        case Resolved(rest) => Resolved([first] + rest)
  }

  /** addActionButtons (sidepanel.js): the row of buttons, or the error
      thrown before the row is attached. */
  function ActionButtons(actions: Value): Settled<Shown> {
    if !actions.Arr? then Rejected("actions.forEach is not a function")
    else match ButtonLabels(actions.items)
      case Resolved(labels) => Resolved(ActionGroup(labels, actions.items))
      case Rejected(m) => Rejected(m)
  }

  /** A row of buttons only ever carries objects: building the label of any
      other value throws. This is why executeAction may read
      `action.description` without a check. */
  lemma ButtonsCarryObjects(actions: Value)
    ensures ActionButtons(actions).Resolved? ==>
      actions.Arr? && forall k :: 0 <= k < |actions.items| ==> actions.items[k].Obj?
  {
    if ActionButtons(actions).Resolved? {
      forall k | 0 <= k < |actions.items| ensures actions.items[k].Obj? {
        assert ButtonLabel(actions.items[k]).Resolved?;
      }
    }
  }

  /** The prompt handleSend sends: the trimmed input, unless a quick
      command is pending. */
  function PromptOf(promptInput: string, storage: map<string, Value>): Value {
    var quickCommand := Lookup(storage, QuickCommandKey);
    if LengthPositive(quickCommand) then quickCommand else Str(Trim(promptInput))
  }

  const PageDataRequest := Obj(map["type" := Str("GET_PAGE_DATA")])

  function AnalysisRequest(prompt: Value, pageData: Value, apiKey: string): Value {
    Obj(map["type" := Str("ANALYZE_PAGE"),
            "data" := Obj(map["prompt" := prompt, "pageData" := pageData, "apiKey" := Str(apiKey)])])
  }

  /** The chat lines a send ends with, and the row of action buttons shown
      right after the first of them. */
  datatype Outcome = Outcome(lines: seq<Value>, buttons: Option<Shown>)

  function ErrorLine(message: string): Value {
    Str("Error: " + message)
  }

  /** What handleSend shows for the analysis reply `response`. */
  function ResponseOutcome(response: Value): (o: Outcome)
    ensures 1 <= |o.lines| <= 2
    ensures (response.Undefined? || response.Null?) ==>
      o == Outcome([ErrorLine("Cannot read properties of " + ToString(response) + " (reading 'error')")], None)
    ensures Truthy(Get(response, "error")) ==> o == Outcome([ErrorLine(ToString(Get(response, "error")))], None)
    ensures !(response.Undefined? || response.Null?) && !Truthy(Get(response, "error")) ==>
      o.lines[0] == Get(response, "response")
    ensures o.buttons.Some? <==>
      && !(response.Undefined? || response.Null?) && !Truthy(Get(response, "error"))
      && Get(response, "actions").Arr? && |Get(response, "actions").items| > 0
      && forall k :: 0 <= k < |Get(response, "actions").items| ==>
           ButtonLabel(Get(response, "actions").items[k]).Resolved?
    ensures o.buttons.Some? ==> |o.lines| == 1 && o.buttons.value.ActionGroup? && o.buttons.value.actions == Get(response, "actions").items
    ensures |o.lines| == 2 ==> o.lines[1].Str? && "Error: " <= o.lines[1].s
    ensures |o.lines| == 2 <==>
      && !(response.Undefined? || response.Null?) && !Truthy(Get(response, "error"))
      && Truthy(Get(response, "actions")) && LengthPositive(Get(response, "actions"))
      && ActionButtons(Get(response, "actions")).Rejected?
    ensures |o.lines| == 2 ==>
      o.lines == [Get(response, "response"), ErrorLine(ActionButtons(Get(response, "actions")).reason)]
  {
    if response.Undefined? || response.Null? then
      Outcome([ErrorLine("Cannot read properties of " + ToString(response) + " (reading 'error')")], None)
    else if Truthy(Get(response, "error")) then
      Outcome([ErrorLine(ToString(Get(response, "error")))], None)
    else
      var actions := Get(response, "actions");
      if Truthy(actions) && LengthPositive(actions) then
        match ActionButtons(actions)
        case Resolved(row) => Outcome([Get(response, "response")], Some(row))
        case Rejected(m) => Outcome([Get(response, "response"), ErrorLine(m)], None)
      else Outcome([Get(response, "response")], None)
  }

  /** What a send that passed the key check ends with: a failed request
      shows its error, otherwise the reply is shown. */
  function SendOutcome(pageReply: Settled<Value>, analysis: Settled<Value>): Outcome {
    if pageReply.Rejected? then Outcome([ErrorLine(pageReply.reason)], None)
    else AnalysisOutcome(analysis)
  }

  /** What is shown once the analysis request has settled. */
  function AnalysisOutcome(analysis: Settled<Value>): Outcome {
    if analysis.Rejected? then Outcome([ErrorLine(analysis.reason)], None)
    else ResponseOutcome(analysis.value)
  }

  /** The requests a send that passed the key check makes: the page data
      first and, unless that failed, the analysis with it. */
  function SendRequests(prompt: Value, apiKey: string, pageReply: Settled<Value>): seq<Value> {
    if pageReply.Rejected? then [PageDataRequest]
    else [PageDataRequest, AnalysisRequest(prompt, Or(pageReply.value, ErrorObj(NoPageData)), apiKey)]
  }

  /** The analysis always carries page data: a missing page reply is
      replaced by an error object, never sent as undefined. */
  lemma AnalysisAlwaysCarriesPageData(prompt: Value, apiKey: string, pageReply: Settled<Value>)
    ensures var rs := SendRequests(prompt, apiKey, pageReply);
      && rs[0] == PageDataRequest
      && (pageReply.Resolved? <==> |rs| == 2)
      && (|rs| == 2 ==> Truthy(Get(Get(rs[1], "data"), "pageData")))
      && (|rs| == 2 && !Truthy(pageReply.value) ==>
            Get(Get(rs[1], "data"), "pageData") == ErrorObj(NoPageData))
  {
  }

  /** As written, the panel forwards the relay's refusal as page data. On a
      tab outside TradingView the page-data request is answered with the
      eligibility error, that error object goes out as `pageData` in the
      analysis request, and the relay, which checks only the key, calls
      the API for it. */
  lemma IneligibleTabStillReachesApi(prompt: Value, apiKey: string)
    requires apiKey != []
    ensures var rs := SendRequests(prompt, apiKey, Resolved(ErrorObj(Background.OnlyWorksOnTradingView)));
      |rs| == 2 && Background.AnalysisCalled(Get(rs[1], "data"))
  {
    RefusalSentAsPageData(prompt, apiKey, Background.OnlyWorksOnTradingView);
  }

  /** A resolved refusal `{error: message}` is sent on as the analysis
      request's page data, beside the key. */
  lemma RefusalSentAsPageData(prompt: Value, apiKey: string, message: string)
    requires message != []
    ensures var rs := SendRequests(prompt, apiKey, Resolved(ErrorObj(message)));
      && |rs| == 2
      && Get(Get(rs[1], "data"), "apiKey") == Str(apiKey)
      && Get(Get(rs[1], "data"), "pageData") == ErrorObj(message)
  {
  }

  /** The requests of a send that stops at a refusal: page data carrying an
      error is shown, not analysed. Otherwise the same requests as the
      panel makes. */
  function GuardedSendRequests(prompt: Value, apiKey: string, pageReply: Settled<Value>): (r: seq<Value>)
    ensures r == SendRequests(prompt, apiKey, pageReply) <==>
      pageReply.Rejected? || !Truthy(Get(Or(pageReply.value, ErrorObj(NoPageData)), "error"))
    ensures r != SendRequests(prompt, apiKey, pageReply) ==> r == SendRequests(prompt, apiKey, pageReply)[..1]
    ensures forall k :: 0 <= k < |r| && Get(r[k], "type") == Str("ANALYZE_PAGE") ==>
      !Truthy(Get(Get(Get(r[k], "data"), "pageData"), "error"))
  {
    if pageReply.Rejected? || Truthy(Get(Or(pageReply.value, ErrorObj(NoPageData)), "error")) then [PageDataRequest]
    else SendRequests(prompt, apiKey, pageReply)
  }

  /** With the guard, a refusal from the relay (an ineligible tab, no tab)
      makes no analysis request, so the API is never called for it. */
  lemma RelayRefusalMakesNoAnalysisRequest(prompt: Value, apiKey: string, message: string)
    requires message != []
    ensures forall k :: 0 <= k < |GuardedSendRequests(prompt, apiKey, Resolved(ErrorObj(message)))| ==>
      Get(GuardedSendRequests(prompt, apiKey, Resolved(ErrorObj(message)))[k], "type") != Str("ANALYZE_PAGE")
  {
  }

  /** Log entries for `lines`, all from `sender`. */
  function Logged(lines: seq<Value>, sender: Sender): (r: seq<Message>)
    ensures |r| == |lines| && forall k :: 0 <= k < |r| ==> r[k] == Message(lines[k], sender)
  {
    if lines == [] then [] else [Message(lines[0], sender)] + Logged(lines[1..], sender)
  }

  /** Assistant bubbles for `lines`. */
  function Bubbles(lines: seq<Value>): (r: seq<Shown>)
    ensures |r| == |lines| && forall k :: 0 <= k < |r| ==> r[k] == Bubble(TextContent(lines[k]), Ai, false)
  {
    if lines == [] then [] else [Bubble(TextContent(lines[0]), Ai, false)] + Bubbles(lines[1..])
  }

  /** Requests made while the panel is loading. */
  function WhileLoading(messages: seq<Value>): (r: seq<Request>)
    ensures |r| == |messages| && forall k :: 0 <= k < |r| ==> r[k] == Request(messages[k], true)
  {
    if messages == [] then [] else [Request(messages[0], true)] + WhileLoading(messages[1..])
  }

  /** How an outcome is rendered after the user's bubble: the first line,
      the buttons if any, then the remaining line. */
  function OutcomeShown(o: Outcome): seq<Shown>
    requires |o.lines| >= 1
  {
    Bubbles(o.lines[..1]) + (if o.buttons.Some? then [o.buttons.value] else []) + Bubbles(o.lines[1..])
  }

  /** The rendering and the log of a one- or two-line outcome, appended to
      what was there before, spelled out bubble by bubble. */
  lemma OutcomeAppended(shownBase: seq<Shown>, logBase: seq<Message>, o: Outcome)
    requires 1 <= |o.lines| <= 2 && (|o.lines| == 2 ==> o.buttons.None?)
    ensures |o.lines| == 1 ==>
      logBase + Logged(o.lines, Ai) == logBase + [Message(o.lines[0], Ai)]
    ensures |o.lines| == 1 && o.buttons.None? ==>
      shownBase + OutcomeShown(o) == shownBase + [Bubble(TextContent(o.lines[0]), Ai, false)]
    ensures |o.lines| == 1 && o.buttons.Some? ==>
      shownBase + OutcomeShown(o) == shownBase + [Bubble(TextContent(o.lines[0]), Ai, false)] + [o.buttons.value]
    ensures |o.lines| == 2 ==>
      && shownBase + OutcomeShown(o)
         == shownBase + [Bubble(TextContent(o.lines[0]), Ai, false)] + [Bubble(TextContent(o.lines[1]), Ai, false)]
      && logBase + Logged(o.lines, Ai) == logBase + [Message(o.lines[0], Ai)] + [Message(o.lines[1], Ai)]
  {
    if |o.lines| == 2 {
      assert Logged(o.lines, Ai) == [Message(o.lines[0], Ai)] + [Message(o.lines[1], Ai)];
      assert OutcomeShown(o) == [Bubble(TextContent(o.lines[0]), Ai, false)] + [Bubble(TextContent(o.lines[1]), Ai, false)];
    } else if o.buttons.Some? {
      assert OutcomeShown(o) == [Bubble(TextContent(o.lines[0]), Ai, false)] + [o.buttons.value];
    }
  }

  predicate IsLoadingBubble(s: Shown) {
    s.Bubble? && s.loading
  }

  predicate NoLoadingBubble(shown: seq<Shown>) {
    forall k :: 0 <= k < |shown| ==> !IsLoadingBubble(shown[k])
  }

  lemma NoLoadingBubbleAppend(a: seq<Shown>, b: seq<Shown>)
    requires NoLoadingBubble(a) && NoLoadingBubble(b)
    ensures NoLoadingBubble(a + b)
  {
    forall k | 0 <= k < |a + b| ensures !IsLoadingBubble((a + b)[k]) {
      if k >= |a| { assert (a + b)[k] == b[k - |a|]; }
    }
  }

  /** A finished send leaves no spinner behind. */
  lemma OutcomeShownHasNoLoadingBubble(o: Outcome)
    requires |o.lines| >= 1 && (o.buttons.Some? ==> o.buttons.value.ActionGroup?)
    ensures NoLoadingBubble(OutcomeShown(o))
  {
    var head := Bubbles(o.lines[..1]);
    var mid: seq<Shown> := if o.buttons.Some? then [o.buttons.value] else [];
    var tail := Bubbles(o.lines[1..]);
    NoLoadingBubbleAppend(head, mid);
    NoLoadingBubbleAppend(head + mid, tail);
  }

  /** The list with its first loading bubble removed
      (`document.querySelector('.loading-message').remove()`). */
  function WithoutFirstLoading(shown: seq<Shown>): (r: seq<Shown>)
    ensures NoLoadingBubble(shown) ==> r == shown
  {
    if shown == [] then []
    else if IsLoadingBubble(shown[0]) then shown[1..]
    else [shown[0]] + WithoutFirstLoading(shown[1..])
  }

  /** Removing the loading bubble appended to a list without one restores
      the list. */
  lemma {:induction false} RemoveAppendedLoading(shown: seq<Shown>, loading: Shown)
    requires NoLoadingBubble(shown)
    requires IsLoadingBubble(loading)
    ensures WithoutFirstLoading(shown + [loading]) == shown
  {
    if shown != [] {
      assert (shown + [loading])[1..] == shown[1..] + [loading];
      RemoveAppendedLoading(shown[1..], loading);
    }
  }

  class TradingAssistant {
    var messages: seq<Message>          // this.messages
    var isLoading: bool                 // this.isLoading
    var promptInput: string             // #promptInput value
    var apiKeyInput: string             // #apiKeyInput value
    var storage: map<string, Value>     // chrome.storage.local
    var shown: seq<Shown>               // the #messages container
    var outbox: seq<Request>            // messages sent to the relay

    /** The loading bubble is on screen only while a send is in progress. */
    predicate Valid()
      reads this
    {
      !isLoading ==> NoLoadingBubble(shown)
    }

    constructor (storage0: map<string, Value>)
      ensures Valid() && messages == [] && !isLoading && shown == [] && outbox == []
      ensures storage == storage0 && promptInput == "" && apiKeyInput == ""
    {
      messages := [];
      isLoading := false;
      promptInput := "";
      apiKeyInput := "";
      storage := storage0;
      shown := [];
      outbox := [];
    }

    /** addMessage (sidepanel.js): one bubble and one log entry. */
    method AddMessage(text: Value, sender: Sender, loading: bool)
      modifies this
      ensures messages == old(messages) + [Message(text, sender)]
      ensures shown == old(shown) + [Bubble(if loading then ToString(text) else TextContent(text), sender, loading)]
      ensures isLoading == old(isLoading) && storage == old(storage) && outbox == old(outbox)
      ensures promptInput == old(promptInput) && apiKeyInput == old(apiKeyInput)
    {
      shown := shown + [Bubble(if loading then ToString(text) else TextContent(text), sender, loading)];
      messages := messages + [Message(text, sender)];
    }

    /** addSystemMessage (sidepanel.js): a bubble that is not logged. */
    method AddSystemMessage(text: string)
      modifies this
      ensures shown == old(shown) + [Bubble(text, System, false)]
      ensures messages == old(messages) && isLoading == old(isLoading) && storage == old(storage)
      ensures outbox == old(outbox) && promptInput == old(promptInput) && apiKeyInput == old(apiKeyInput)
      ensures old(Valid()) ==> Valid()
    {
      shown := shown + [Bubble(text, System, false)];
    }

    /** removeLoadingMessage (sidepanel.js) */
    method RemoveLoadingMessage()
      modifies this
      ensures shown == WithoutFirstLoading(old(shown))
      ensures messages == old(messages) && isLoading == old(isLoading) && storage == old(storage)
      ensures outbox == old(outbox) && promptInput == old(promptInput) && apiKeyInput == old(apiKeyInput)
    {
      shown := WithoutFirstLoading(shown);
    }

    /** setLoading (sidepanel.js); the button and input states follow the flag. */
    method SetLoading(loading: bool)
      modifies this
      ensures isLoading == loading
      ensures messages == old(messages) && shown == old(shown) && storage == old(storage)
      ensures outbox == old(outbox) && promptInput == old(promptInput) && apiKeyInput == old(apiKeyInput)
    {
      isLoading := loading;
    }

    /** `chrome.runtime.sendMessage(message, ...)` */
    method Send(message: Value)
      modifies this
      ensures outbox == old(outbox) + [Request(message, isLoading)]
      ensures messages == old(messages) && shown == old(shown) && storage == old(storage) && isLoading == old(isLoading)
      ensures promptInput == old(promptInput) && apiKeyInput == old(apiKeyInput)
    {
      outbox := outbox + [Request(message, isLoading)];
    }

    /** saveApiKey (sidepanel.js): store the trimmed key. */
    method SaveApiKey()
      modifies this
      ensures storage == SavedKey(old(storage), apiKeyInput)
      ensures messages == old(messages) && shown == old(shown) && isLoading == old(isLoading) && outbox == old(outbox)
      ensures promptInput == old(promptInput) && apiKeyInput == old(apiKeyInput)
    {
      storage := storage[ApiKeyKey := Str(Trim(apiKeyInput))];
    }

    /** loadApiKey (sidepanel.js): a stored non-empty key fills the input. */
    method LoadApiKey()
      modifies this
      ensures apiKeyInput == LoadedKey(storage, old(apiKeyInput))
      ensures messages == old(messages) && shown == old(shown) && isLoading == old(isLoading)
      ensures outbox == old(outbox) && promptInput == old(promptInput) && storage == old(storage)
    {
      var stored := Lookup(storage, ApiKeyKey);
      if Truthy(stored) {
        apiKeyInput := ToString(stored);
      }
    }

    /** addActionButtons (sidepanel.js): the row is attached only when every
        label could be built; otherwise the error thrown is returned. */
    method AddActionButtons(actions: Value) returns (thrown: Option<string>)
      modifies this
      ensures thrown.None? <==> ActionButtons(actions).Resolved?
      ensures thrown.Some? ==> ActionButtons(actions) == Rejected(thrown.value)
      ensures shown == old(shown) + (if thrown.None? then [ActionButtons(actions).value] else [])
      ensures messages == old(messages) && isLoading == old(isLoading) && storage == old(storage)
      ensures outbox == old(outbox) && promptInput == old(promptInput) && apiKeyInput == old(apiKeyInput)
    {
      match ActionButtons(actions) {
        case Resolved(row) =>
          shown := shown + [row];
          thrown := None;
        case Rejected(m) =>
          thrown := Some(m);
      }
    }

    /** Shows the analysis reply (the body of the try block after the
        loading bubble is removed, with its catch). */
    method ShowResponse(response: Value)
      requires NoLoadingBubble(shown)
      modifies this
      ensures messages == old(messages) + Logged(ResponseOutcome(response).lines, Ai)
      ensures shown == old(shown) + OutcomeShown(ResponseOutcome(response))
      ensures isLoading == old(isLoading) && storage == old(storage) && outbox == old(outbox)
      ensures promptInput == old(promptInput) && apiKeyInput == old(apiKeyInput)
    {
      var o := ResponseOutcome(response);
      OutcomeAppended(shown, messages, o);
      if response.Undefined? || response.Null? || Truthy(Get(response, "error")) {
        AddMessage(o.lines[0], Ai, false);
        return;
      }
      ghost var before := shown;
      AddMessage(Get(response, "response"), Ai, false);
      var actions := Get(response, "actions");
      if Truthy(actions) && LengthPositive(actions) {
        var thrown := AddActionButtons(actions);
        if thrown.Some? {
          NoLoadingBubbleAppend(before, [Bubble(TextContent(Get(response, "response")), Ai, false)]);
          RemoveLoadingMessage();
          AddMessage(ErrorLine(thrown.value), Ai, false);
        }
      }
    }

    /** The catch block of handleSend: the loading bubble `shown` ends with
        gives way to the error line. */
    method ShowError(message: string, ghost base: seq<Shown>)
      requires NoLoadingBubble(base) && shown == base + [Bubble(LoadingText, Ai, true)]
      modifies this
      ensures messages == old(messages) + Logged(Outcome([ErrorLine(message)], None).lines, Ai)
      ensures shown == base + OutcomeShown(Outcome([ErrorLine(message)], None))
      ensures isLoading == old(isLoading) && storage == old(storage) && outbox == old(outbox)
      ensures promptInput == old(promptInput) && apiKeyInput == old(apiKeyInput)
    {
      OutcomeAppended(base, messages, Outcome([ErrorLine(message)], None));
      RemoveAppendedLoading(base, Bubble(LoadingText, Ai, true));
      RemoveLoadingMessage();
      AddMessage(ErrorLine(message), Ai, false);
    }

    /** The try block of handleSend once the analysis request has settled:
        the loading bubble gives way to the reply, or to the error the
        request was rejected with. */
    method ShowAnalysis(analysis: Settled<Value>, ghost base: seq<Shown>)
      requires NoLoadingBubble(base) && shown == base + [Bubble(LoadingText, Ai, true)]
      modifies this
      ensures messages == old(messages) + Logged(AnalysisOutcome(analysis).lines, Ai)
      ensures shown == base + OutcomeShown(AnalysisOutcome(analysis))
      ensures isLoading == old(isLoading) && storage == old(storage) && outbox == old(outbox)
      ensures promptInput == old(promptInput) && apiKeyInput == old(apiKeyInput)
    {
      match analysis {
        case Rejected(m) =>
          ShowError(m, base);
        case Resolved(response) =>
          RemoveAppendedLoading(base, Bubble(LoadingText, Ai, true));
          RemoveLoadingMessage();
          ShowResponse(response);
      }
    }

    /** The try block of handleSend with its catch: request the page data
        and the analysis, then show the outcome in place of the loading
        bubble `shown` ends with. */
    method Exchange(prompt: Value, apiKey: string, pageReply: Settled<Value>, analysis: Settled<Value>,
                    ghost base: seq<Shown>)
      requires isLoading && NoLoadingBubble(base) && shown == base + [Bubble(LoadingText, Ai, true)]
      modifies this
      ensures messages == old(messages) + Logged(SendOutcome(pageReply, analysis).lines, Ai)
      ensures shown == base + OutcomeShown(SendOutcome(pageReply, analysis))
      ensures outbox == old(outbox) + WhileLoading(SendRequests(prompt, apiKey, pageReply))
      ensures isLoading && storage == old(storage) && promptInput == old(promptInput) && apiKeyInput == old(apiKeyInput)
    {
      Send(PageDataRequest);
      if pageReply.Rejected? {
        ShowError(pageReply.reason, base);
      } else {
        var pageData := Or(pageReply.value, ErrorObj(NoPageData));
        Send(AnalysisRequest(prompt, pageData, apiKey));
        ShowAnalysis(analysis, base);
      }
    }

    /** The part of handleSend after the key check: the flag is set for the
        whole exchange and cleared after it. */
    method Analyze(prompt: Value, apiKey: string, pageReply: Settled<Value>, analysis: Settled<Value>)
      requires !isLoading && Valid()
      modifies this
      ensures !isLoading && Valid()
      ensures messages == old(messages) + [Message(Str(LoadingText), Ai)]
                          + Logged(SendOutcome(pageReply, analysis).lines, Ai)
      ensures shown == old(shown) + OutcomeShown(SendOutcome(pageReply, analysis))
      ensures outbox == old(outbox) + WhileLoading(SendRequests(prompt, apiKey, pageReply))
      ensures storage == old(storage) && promptInput == old(promptInput) && apiKeyInput == old(apiKeyInput)
    {
      ghost var base := shown;
      SetLoading(true);
      AddMessage(Str(LoadingText), Ai, true);
      Exchange(prompt, apiKey, pageReply, analysis, base);
      OutcomeShownHasNoLoadingBubble(SendOutcome(pageReply, analysis));
      NoLoadingBubbleAppend(base, OutcomeShown(SendOutcome(pageReply, analysis)));
      SetLoading(false);
    }

    /** The prompt of handleSend: the trimmed input, replaced by a pending
        quick command, which is removed from storage. */
    method TakePrompt() returns (prompt: Value)
      modifies this
      ensures prompt == PromptOf(old(promptInput), old(storage))
      ensures storage ==
        (if LengthPositive(Lookup(old(storage), QuickCommandKey)) then old(storage) - {QuickCommandKey} else old(storage))
      ensures !LengthPositive(Lookup(storage, QuickCommandKey))
      ensures messages == old(messages) && shown == old(shown) && isLoading == old(isLoading) && outbox == old(outbox)
      ensures promptInput == old(promptInput) && apiKeyInput == old(apiKeyInput)
    {
      prompt := Str(Trim(promptInput));
      var quickCommand := Lookup(storage, QuickCommandKey);
      if LengthPositive(quickCommand) {
        prompt := quickCommand;
        storage := storage - {QuickCommandKey};
      }
    }

    /** The rest of handleSend once the prompt is known to be non-empty:
        clear the input, log the prompt, then either the key hint or the
        exchange. */
    method Submit(prompt: Value, pageReply: Settled<Value>, analysis: Settled<Value>)
      requires !isLoading && NoLoadingBubble(shown)
      modifies this
      ensures !isLoading && NoLoadingBubble(shown)
      ensures promptInput == "" && storage == old(storage) && apiKeyInput == old(apiKeyInput)
      ensures Trim(apiKeyInput) == "" ==>
        && messages == old(messages) + [Message(prompt, User), Message(Str(ApiKeyHint), Ai)]
        && shown == old(shown) + [Bubble(TextContent(prompt), User, false), Bubble(ApiKeyHint, Ai, false)]
        && outbox == old(outbox)
      ensures var o := SendOutcome(pageReply, analysis);
        Trim(apiKeyInput) != "" ==>
          && messages == old(messages) + [Message(prompt, User)] + [Message(Str(LoadingText), Ai)] + Logged(o.lines, Ai)
          && shown == old(shown) + [Bubble(TextContent(prompt), User, false)] + OutcomeShown(o)
          && outbox == old(outbox) + WhileLoading(SendRequests(prompt, Trim(apiKeyInput), pageReply))
    {
      promptInput := "";
      AddMessage(prompt, User, false);
      var apiKey := Trim(apiKeyInput);
      if apiKey == "" {
        AddMessage(Str(ApiKeyHint), Ai, false);
      } else {
        Analyze(prompt, apiKey, pageReply, analysis);
      }
    }

    /** handleSend (sidepanel.js), with the relay's answer to the page-data
        request and to the analysis request as parameters (a rejection is
        an error thrown while sending). */
    method HandleSend(pageReply: Settled<Value>, analysis: Settled<Value>)
      requires Valid()
      modifies this
      ensures Valid()
      ensures apiKeyInput == old(apiKeyInput)
      // re-entrancy guard: nothing at all happens while a send is in progress
      ensures old(isLoading) ==>
        && isLoading && messages == old(messages) && shown == old(shown) && outbox == old(outbox)
        && storage == old(storage) && promptInput == old(promptInput)
      // otherwise the flag ends false, and a pending quick command is consumed
      ensures !old(isLoading) ==> !isLoading
      ensures !old(isLoading) ==>
        storage ==
        (if LengthPositive(Lookup(old(storage), QuickCommandKey)) then old(storage) - {QuickCommandKey} else old(storage))
      ensures !old(isLoading) ==> !LengthPositive(Lookup(storage, QuickCommandKey))
      // an empty prompt shows and sends nothing
      ensures !old(isLoading) && !Truthy(PromptOf(old(promptInput), old(storage))) ==>
        messages == old(messages) && shown == old(shown) && outbox == old(outbox) && promptInput == old(promptInput)
      // without a key: the user line and the hint, no request
      ensures var prompt := PromptOf(old(promptInput), old(storage));
        !old(isLoading) && Truthy(prompt) && Trim(apiKeyInput) == "" ==>
          && messages == old(messages) + [Message(prompt, User), Message(Str(ApiKeyHint), Ai)]
          && shown == old(shown) + [Bubble(TextContent(prompt), User, false), Bubble(ApiKeyHint, Ai, false)]
          && outbox == old(outbox) && promptInput == ""
      // with a key: the user line, the loading line, the requests (all made
      // while loading), then the outcome
      ensures var prompt := PromptOf(old(promptInput), old(storage));
        var o := SendOutcome(pageReply, analysis);
        !old(isLoading) && Truthy(prompt) && Trim(apiKeyInput) != "" ==>
          && messages == old(messages) + [Message(prompt, User), Message(Str(LoadingText), Ai)] + Logged(o.lines, Ai)
          && shown == old(shown) + [Bubble(TextContent(prompt), User, false)] + OutcomeShown(o)
          && outbox == old(outbox) + WhileLoading(SendRequests(prompt, Trim(apiKeyInput), pageReply))
          && promptInput == ""
    {
      if !isLoading {
        var prompt := TakePrompt();
        if Truthy(prompt) {
          Submit(prompt, pageReply, analysis);
        }
      }
    }

    /** executeAction (sidepanel.js): announce the action, ask the relay to
        perform it and report the result. Buttons only ever carry objects:
        building a label for anything else throws first. */
    method ExecuteAction(action: Value, result: Settled<Value>)
      requires action.Obj?
      modifies this
      ensures var announce := "Executing: " + ToString(Get(action, "description"));
        var follow := ActionFollowUp(result);
        && messages == old(messages) + [Message(Str(announce), System)] +
             (if follow.Some? then [Message(Str(follow.value), System)] else [])
        && shown == old(shown) + [Bubble(announce, System, false)] +
             (if follow.Some? then [Bubble(follow.value, System, false)] else [])
      ensures outbox == old(outbox) + [Request(Obj(map["type" := Str("EXECUTE_ACTION"), "action" := action]), old(isLoading))]
      ensures isLoading == old(isLoading) && storage == old(storage)
      ensures promptInput == old(promptInput) && apiKeyInput == old(apiKeyInput)
      ensures old(Valid()) ==> Valid()
    {
      var announce := "Executing: " + ToString(Get(action, "description"));
      AddMessage(Str(announce), System, false);
      Send(Obj(map["type" := Str("EXECUTE_ACTION"), "action" := action]));
      var follow := ActionFollowUp(result);
      if follow.Some? {
        AddMessage(Str(follow.value), System, false);
      }
      if old(Valid()) && !isLoading {
        var added := [Bubble(announce, System, false)] + (if follow.Some? then [Bubble(follow.value, System, false)] else []);
        assert NoLoadingBubble(added);
        NoLoadingBubbleAppend(old(shown), added);
        assert shown == old(shown) + added;
      }
    }
  }

  /** The second system line executeAction logs for the relay's answer to
      EXECUTE_ACTION: success, the reported error, or the rejection's
      message; an answer with neither flag adds nothing. */
  function ActionFollowUp(result: Settled<Value>): (r: Option<string>)
    ensures result.Rejected? ==> r == Some("❌ Failed to execute action: " + result.reason)
    ensures result.Resolved? && Truthy(result.value) && Truthy(Get(result.value, "success")) ==>
      r == Some(ActionExecuted)
    ensures (result.Resolved? && Truthy(result.value) && !Truthy(Get(result.value, "success"))
             && Truthy(Get(result.value, "error"))) ==> r == Some("❌ " + ToString(Get(result.value, "error")))
    ensures result.Resolved? && r.Some? ==> Truthy(result.value)
    ensures result.Resolved? && r == None <==>
      result.Resolved? && !(Truthy(result.value) && (Truthy(Get(result.value, "success")) || Truthy(Get(result.value, "error"))))
  {
    match result
    case Rejected(m) => Some("❌ Failed to execute action: " + m)
    case Resolved(r) =>
      if Truthy(r) && Truthy(Get(r, "success")) then Some(ActionExecuted)
      else if Truthy(r) && Truthy(Get(r, "error")) then Some("❌ " + ToString(Get(r, "error")))
      else None
  }

  /** The storage after saveApiKey with `input` in the key box. */
  function SavedKey(storage: map<string, Value>, input: string): map<string, Value> {
    storage[ApiKeyKey := Str(Trim(input))]
  }

  /** The key box after loadApiKey. */
  function LoadedKey(storage: map<string, Value>, input: string): string {
    if Truthy(Lookup(storage, ApiKeyKey)) then ToString(Lookup(storage, ApiKeyKey)) else input
  }

  /** Saving then loading restores the trimmed key in any later panel; an
      all-blank key is stored empty and leaves the box as it was; saving
      what was loaded stores the same key again. */
  lemma SavedKeyRoundTrip(storage: map<string, Value>, input: string, later: string)
    ensures Trim(input) != "" ==> LoadedKey(SavedKey(storage, input), later) == Trim(input)
    ensures Trim(input) == "" ==> LoadedKey(SavedKey(storage, input), later) == later
    ensures Trim(input) != "" ==>
      SavedKey(SavedKey(storage, input), LoadedKey(SavedKey(storage, input), later)) == SavedKey(storage, input)
  {
    TrimIdempotent(input);
  }
}
