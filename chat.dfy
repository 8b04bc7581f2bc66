/** The useChatBox hook as an object: the typing flag, the chat-box handle, the
    API connection flag and the clarification cooldown, with the callbacks that
    use them, and the keyword-matching offline responder. */
module Chat {
  import opened Types
  import opened Text
  import opened Gemini

  const ClarificationCooldownMs: int := 10000

  const AutoClarificationPrefix: string :=
    "\U{1F504} **Auto-Clarification** _(I noticed you looked confused)_\n\n"

  const TroubleConnecting: string :=
    "I'm having trouble connecting to my AI brain. Please check your internet connection and try again."

  /** `if (lastClarificationTime.current)` and the 10 s test: a stored 0 is falsy,
      so it starts no cooldown. */
  predicate CooldownActive(last: Option<int>, now: int)
  {
    last.Some? && last.value != 0 && now - last.value < ClarificationCooldownMs
  }

  // ---- generateMockResponse ----

  /** The keyword entries of `responses`, in insertion order. */
  const Keywords: seq<string> := ["newton", "gravity", "algebra", "calculus"]

  /** The canned text of the k-th keyword. */
  function CannedResponse(k: nat): string
    requires k < |Keywords|
  {
    match k
    case 0 => "Newton's Laws describe the relationship between forces and motion:\n\n1st Law: Objects at rest stay at rest, objects in motion stay in motion (unless acted upon by a force)\n2nd Law: F = ma (Force equals mass times acceleration)\n3rd Law: For every action, there's an equal and opposite reaction\n\nWould you like me to explain any of these in more detail?"
    case 1 => "Gravity is a fundamental force that attracts objects with mass toward each other. On Earth, it pulls everything toward the center at 9.8 m/s\U{00B2}. The more massive an object, the stronger its gravitational pull. This is why planets orbit stars and why things fall down instead of up!"
    case 2 => "Algebra is about finding unknown values using equations. We use letters (like x or y) to represent unknown numbers, then solve to find what those letters equal. For example: if x + 5 = 12, then x = 7."
    case 3 => "Calculus studies how things change. There are two main parts:\n- Derivatives: How fast something changes (like speed from distance)\n- Integrals: Adding up all the small changes (like finding area under a curve)\n\nIt's used everywhere from physics to economics!"
  }

  const DefaultResponseCount: nat := 4

  /** The i-th entry of the `default` list. */
  function DefaultResponse(i: nat): string
    requires i < DefaultResponseCount
  {
    match i
    case 0 => "That's a great question! Let me break this down for you step by step."
    case 1 => "I'd be happy to help you understand this topic better!"
    case 2 => "That's an interesting topic. Let me explain it in a way that makes sense."
    case 3 => "Great question! Here's how I like to think about this concept..."
  }

  /** The first keyword at or after position `from` that the lower-cased message contains. */
  function FirstKeyword(lower: string, from: nat): (r: Option<nat>)
    requires from <= |Keywords|
    ensures r.Some? ==> from <= r.value < |Keywords| && Contains(lower, Keywords[r.value])
    ensures r.Some? ==> forall k :: from <= k < r.value ==> !Contains(lower, Keywords[k])
    ensures r.None? ==> forall k :: from <= k < |Keywords| ==> !Contains(lower, Keywords[k])
    decreases |Keywords| - from
  {
    if from == |Keywords| then None
    else if Contains(lower, Keywords[from]) then Some(from)
    else FirstKeyword(lower, from + 1)
  }

  const AskedAboutOpen: string := "\n\nYou asked about: \""
  const AskedAboutClose: string :=
    "\"\n\nI'm still learning about this topic. Could you be more specific about what aspect you'd like me to explain?"

  /** The fallback text: the chosen default sentence, then a suffix quoting the message. */
  function DefaultReply(message: string, defaultIndex: nat): string
    requires defaultIndex < DefaultResponseCount
  {
    DefaultResponse(defaultIndex) + (AskedAboutOpen + message + AskedAboutClose)
  }

  /** What generateMockResponse returns; `Math.random()` picks `defaultIndex`. */
  function MockResponse(message: string, defaultIndex: nat): string
    requires defaultIndex < DefaultResponseCount
  {
    match FirstKeyword(Lower(message), 0)
    case Some(k) => CannedResponse(k)
    case None => DefaultReply(message, defaultIndex)
  }

  /** The canned text of the first keyword, in the order newton, gravity, algebra,
      calculus, that the lower-cased message contains; otherwise a default sentence
      followed by a suffix that quotes the original message. */
  lemma MockResponseCases(message: string, defaultIndex: nat)
    requires defaultIndex < DefaultResponseCount
    ensures forall k ::
      (&& 0 <= k < |Keywords| && Contains(Lower(message), Keywords[k])
       && (forall j :: 0 <= j < k ==> !Contains(Lower(message), Keywords[j])))
      ==> MockResponse(message, defaultIndex) == CannedResponse(k)
    ensures (forall k :: 0 <= k < |Keywords| ==> !Contains(Lower(message), Keywords[k])) ==>
      && StartsWith(MockResponse(message, defaultIndex), DefaultResponse(defaultIndex))
      && Contains(MockResponse(message, defaultIndex), message)
  {
    var lower := Lower(message);
    forall k | && 0 <= k < |Keywords| && Contains(lower, Keywords[k])
               && (forall j :: 0 <= j < k ==> !Contains(lower, Keywords[j]))
      ensures MockResponse(message, defaultIndex) == CannedResponse(k)
    {
      var first := FirstKeyword(lower, 0);
      assert first.Some? && first.value == k;
    }
    if forall k :: 0 <= k < |Keywords| ==> !Contains(lower, Keywords[k]) {
      QuotedShape(DefaultResponse(defaultIndex), AskedAboutOpen, message, AskedAboutClose);
    }
  }

  /** generateMockResponse: the keyword loop with its early return. */
  method GenerateMockResponse(message: string, defaultIndex: nat) returns (r: string)
    requires defaultIndex < DefaultResponseCount
    ensures r == MockResponse(message, defaultIndex)
  {
    var lowerMessage := Lower(message);
    var i := 0;
    while i < |Keywords|
      invariant 0 <= i <= |Keywords|
      invariant FirstKeyword(lowerMessage, 0) == FirstKeyword(lowerMessage, i)
    {
      if Contains(lowerMessage, Keywords[i]) {
        return CannedResponse(i);
      }
      i := i + 1;
    }
    r := DefaultReply(message, defaultIndex);
  }

  // ---- the hook ----

  /** Consecutive delivered clarifications are at least the cooldown apart, unless
      the earlier one was stored as the falsy time 0. */
  ghost predicate Spaced(times: seq<int>)
  {
    forall i :: 0 < i < |times| ==> times[i - 1] == 0 || times[i] - times[i - 1] >= ClarificationCooldownMs
  }

  /** Without a delivery at time 0, any two deliveries are at least the cooldown
      apart for every delivery in between. */
  lemma {:induction false} SpacedPairwise(times: seq<int>)
    requires Spaced(times)
    requires forall i :: 0 <= i < |times| ==> times[i] != 0
    ensures forall i, j :: 0 <= i < j < |times| ==> times[j] - times[i] >= (j - i) * ClarificationCooldownMs
  {
    if |times| > 1 {
      var init := times[..|times| - 1];
      assert Spaced(init) by {
        forall i | 0 < i < |init| ensures init[i - 1] == 0 || init[i] - init[i - 1] >= ClarificationCooldownMs {
          assert init[i - 1] == times[i - 1] && init[i] == times[i];
        }
      }
      SpacedPairwise(init);
      var last := |times| - 1;
      forall i, j | 0 <= i < j < |times| ensures times[j] - times[i] >= (j - i) * ClarificationCooldownMs {
        if j < last {
          assert init[j] - init[i] >= (j - i) * ClarificationCooldownMs;
        } else if i < last - 1 {
          assert init[last - 1] - init[i] >= (last - 1 - i) * ClarificationCooldownMs;
        }
      }
    }
  }

  class ChatState {
    var isTyping: bool
    /** Whether chatBoxRef is set (and so offers addAIResponse). */
    var chatBoxAttached: bool
    var apiConnected: Option<bool>
    var lastClarificationTime: Option<int>
    /** The texts handed to chatBoxRef.addAIResponse, oldest first. */
    var delivered: seq<string>
    /** The times at which auto-clarifications were delivered. */
    ghost var clarificationTimes: seq<int>

    ghost predicate Valid()
      reads this
    {
      && (|clarificationTimes| == 0 <==> lastClarificationTime.None?)
      && (|clarificationTimes| > 0 ==> lastClarificationTime == Some(clarificationTimes[|clarificationTimes| - 1]))
      && Spaced(clarificationTimes)
    }

    constructor()
      ensures Valid()
      ensures !isTyping && !chatBoxAttached && apiConnected.None? && lastClarificationTime.None?
      ensures delivered == []
    {
      isTyping := false;
      chatBoxAttached := false;
      apiConnected := None;
      lastClarificationTime := None;
      delivered := [];
      clarificationTimes := [];
    }

    method SetChatBoxAttached(attached: bool)
      requires Valid()
      modifies this
      ensures Valid()
      ensures chatBoxAttached == attached
      ensures isTyping == old(isTyping) && apiConnected == old(apiConnected)
      ensures lastClarificationTime == old(lastClarificationTime) && delivered == old(delivered)
    {
      chatBoxAttached := attached;
    }

    /** testApiConnection, with the outcome of the SDK's test as a parameter. */
    method TestApiConnection(success: bool) returns (ok: bool)
      requires Valid()
      modifies this
      ensures Valid()
      ensures ok == success && apiConnected == Some(success)
      ensures isTyping == old(isTyping) && chatBoxAttached == old(chatBoxAttached)
      ensures lastClarificationTime == old(lastClarificationTime) && delivered == old(delivered)
    {
      apiConnected := Some(success);
      ok := success;
    }

    /** addAIResponse: hand a text to the chat box, if one is attached. */
    method AddAIResponse(response: string)
      requires Valid()
      modifies this
      ensures Valid()
      ensures delivered == if chatBoxAttached then old(delivered) + [response] else old(delivered)
      ensures isTyping == old(isTyping) && chatBoxAttached == old(chatBoxAttached)
      ensures apiConnected == old(apiConnected) && lastClarificationTime == old(lastClarificationTime)
    {
      if chatBoxAttached {
        delivered := delivered + [response];
      }
    }

    /** handleConfusedState. Nothing happens while the tutor is typing or while the
        cooldown runs; otherwise a simplified explanation is requested and, when it
        is a non-empty text and a chat box is attached, delivered with the
        auto-clarification banner, which starts a new cooldown. */
    method HandleConfusedState(gemini: GeminiService, sdk: (nat, string) -> SdkReply, now: int)
      returns (simplifiedText: Option<string>)
      requires Valid()
      modifies this, gemini
      ensures Valid()
      ensures isTyping == old(isTyping) && chatBoxAttached == old(chatBoxAttached) && apiConnected == old(apiConnected)
      ensures gemini.currentModelIndex == old(gemini.currentModelIndex)
      ensures isTyping || CooldownActive(old(lastClarificationTime), now) ==>
        simplifiedText.None? && unchanged(this) && unchanged(gemini)
      ensures simplifiedText.Some? && simplifiedText.value != "" && chatBoxAttached ==>
        && delivered == old(delivered) + [AutoClarificationPrefix + simplifiedText.value]
        && lastClarificationTime == Some(now)
        && clarificationTimes == old(clarificationTimes) + [now]
      ensures !(simplifiedText.Some? && simplifiedText.value != "" && chatBoxAttached) ==>
        && delivered == old(delivered) && lastClarificationTime == old(lastClarificationTime)
        && clarificationTimes == old(clarificationTimes)
      // with no model or nothing to simplify there is no request and no clarification
      ensures (&& !isTyping && !CooldownActive(old(lastClarificationTime), now)
               && (!gemini.configured || |old(gemini.conversationHistory)| == 0)) ==>
        simplifiedText.None? && unchanged(gemini)
      // what was requested: the simplified answer to the last exchange, recorded in the history
      ensures (!isTyping && !CooldownActive(old(lastClarificationTime), now) && gemini.configured
        && |old(gemini.conversationHistory)| > 0) ==>
        var last := old(gemini.conversationHistory)[|old(gemini.conversationHistory)| - 1];
        var reply := sdk(gemini.ActiveModel(), SimplifyPrompt(last.user, last.ai));
        && simplifiedText == (if reply.Reply? then Some(reply.text) else None)
        && gemini.conversationHistory == if reply.Reply?
             then old(gemini.conversationHistory) + [Exchange(AutoClarificationUser, reply.text, Some("confused"), now)]
             else old(gemini.conversationHistory)
    {
      if isTyping || CooldownActive(lastClarificationTime, now) {
        return None;
      }
      simplifiedText := gemini.GenerateSimplifiedExplanation(sdk, now);
      if simplifiedText.Some? && simplifiedText.value != "" && chatBoxAttached {
        DeliverClarification(simplifiedText.value, now);
      }
    }

    /** Show an auto-clarification and start the cooldown at `now`. */
    method DeliverClarification(text: string, now: int)
      requires Valid()
      requires chatBoxAttached && !CooldownActive(lastClarificationTime, now)
      modifies this
      ensures Valid()
      ensures delivered == old(delivered) + [AutoClarificationPrefix + text]
      ensures lastClarificationTime == Some(now)
      ensures clarificationTimes == old(clarificationTimes) + [now]
      ensures isTyping == old(isTyping) && chatBoxAttached == old(chatBoxAttached) && apiConnected == old(apiConnected)
    {
      var autoClarificationMessage := AutoClarificationPrefix + text;
      delivered := delivered + [autoClarificationMessage];
      lastClarificationTime := Some(now);
      clarificationTimes := clarificationTimes + [now];
    }

    /** The synchronous start of handleSendMessage: raise the typing flag. The
        result is the apiConnected value the callback closed over, which the rest
        of the call uses even after the connection test updates the state. */
    method BeginSendMessage() returns (connectedAtCall: Option<bool>)
      requires Valid()
      modifies this
      ensures Valid()
      ensures isTyping && connectedAtCall == apiConnected
      ensures chatBoxAttached == old(chatBoxAttached) && apiConnected == old(apiConnected)
      ensures lastClarificationTime == old(lastClarificationTime) && delivered == old(delivered)
    {
      isTyping := true;
      connectedAtCall := apiConnected;
    }

    /** The awaited part of handleSendMessage: the connection test when the
        captured flag was null, then the request to the tutor. None when the test
        failed and the model was not asked. */
    method AskTutor(message: string, emotionalState: Option<string>, connectedAtCall: Option<bool>,
                    connectionTest: bool, gemini: GeminiService, sdk: (nat, string) -> SdkReply, now: int)
      returns (asked: Option<Response>)
      requires Valid()
      modifies this, gemini
      ensures Valid()
      ensures isTyping == old(isTyping) && delivered == old(delivered)
      ensures chatBoxAttached == old(chatBoxAttached) && lastClarificationTime == old(lastClarificationTime)
      ensures apiConnected == if connectedAtCall.None? then Some(connectionTest) else old(apiConnected)
      ensures asked.None? <==> connectedAtCall.None? && !connectionTest
      ensures asked.None? ==> unchanged(gemini)
      ensures asked.Some? && !gemini.configured ==> asked == Some(Returned(ConfigurationError))
      ensures asked.Some? && gemini.configured ==>
        var r := sdk(gemini.ActiveModel(), FullPrompt(BuildSystemPrompt(emotionalState), message));
        && (r.Reply? ==> (&& asked == Some(Returned(r.text))
              && gemini.conversationHistory == old(gemini.conversationHistory) + [Exchange(message, r.text, emotionalState, now)]))
        && (r.Failure? ==> (&& asked == Some(if r.error.message.None? then Threw else Returned(GetErrorResponse(r.error)))
              && gemini.conversationHistory == old(gemini.conversationHistory)))
    {
      if connectedAtCall.None? {
        var connected := TestApiConnection(connectionTest);
        if !connected {
          return None;
        }
      }
      var aiResponse := gemini.GenerateResponse(message, emotionalState, sdk, now);
      asked := Some(aiResponse);
    }

    /** The rest of handleSendMessage once its awaits resolve. `connectionTest` is
        the outcome of the connection test made when the captured flag was null,
        `defaultIndex` the random default sentence of the offline responder. A
        reply is shown as is; on a failure the fallback depends on the flag the
        call captured, not on the one the test has since stored. */
    method CompleteSendMessage(message: string, emotionalState: Option<string>, connectedAtCall: Option<bool>,
                               connectionTest: bool, defaultIndex: nat,
                               gemini: GeminiService, sdk: (nat, string) -> SdkReply, now: int)
      returns (reply: string, ghost asked: Option<Response>)
      requires Valid()
      requires defaultIndex < DefaultResponseCount
      modifies this, gemini
      ensures Valid()
      ensures !isTyping
      ensures delivered == if chatBoxAttached then old(delivered) + [reply] else old(delivered)
      ensures chatBoxAttached == old(chatBoxAttached) && lastClarificationTime == old(lastClarificationTime)
      ensures apiConnected == if connectedAtCall.None? then Some(connectionTest) else old(apiConnected)
      ensures asked.None? <==> connectedAtCall.None? && !connectionTest
      ensures asked.None? ==> unchanged(gemini)
      ensures asked.Some? && !gemini.configured ==> asked == Some(Returned(ConfigurationError))
      ensures asked.Some? && gemini.configured ==>
        var r := sdk(gemini.ActiveModel(), FullPrompt(BuildSystemPrompt(emotionalState), message));
        && (r.Reply? ==> (&& asked == Some(Returned(r.text))
              && gemini.conversationHistory == old(gemini.conversationHistory) + [Exchange(message, r.text, emotionalState, now)]))
        && (r.Failure? ==> (&& asked == Some(if r.error.message.None? then Threw else Returned(GetErrorResponse(r.error)))
              && gemini.conversationHistory == old(gemini.conversationHistory)))
      ensures asked.Some? && asked.value.Returned? ==> reply == asked.value.text
      ensures asked.None? || asked == Some(Threw) ==>
        reply == if connectedAtCall == Some(false) then TroubleConnecting else MockResponse(message, defaultIndex)
    {
      var answer := AskTutor(message, emotionalState, connectedAtCall, connectionTest, gemini, sdk, now);
      asked := answer;
      if answer.Some? && answer.value.Returned? {
        reply := answer.value.text;
      } else {
        reply := FallbackResponse(message, connectedAtCall, defaultIndex);
      }
      AddAIResponse(reply);
      EndTyping();
    }

    /** The `finally` of handleSendMessage: the typing indicator goes off. */
    method EndTyping()
      requires Valid()
      modifies this
      ensures Valid()
      ensures !isTyping
      ensures chatBoxAttached == old(chatBoxAttached) && apiConnected == old(apiConnected)
      ensures lastClarificationTime == old(lastClarificationTime) && delivered == old(delivered)
    {
      isTyping := false;
    }

    /** The catch branch's reply: the connection message when the captured flag
        says the connection is down, the offline responder's answer otherwise. */
    method FallbackResponse(message: string, connectedAtCall: Option<bool>, defaultIndex: nat) returns (fallback: string)
      requires defaultIndex < DefaultResponseCount
      ensures connectedAtCall == Some(false) ==> fallback == TroubleConnecting
      ensures connectedAtCall != Some(false) ==> fallback == MockResponse(message, defaultIndex)
    {
      if connectedAtCall == Some(false) {
        fallback := TroubleConnecting;
      } else {
        fallback := GenerateMockResponse(message, defaultIndex);
      }
    }

    /** handleSendMessage as one step, for a caller that does not interleave
        other callbacks with its awaits. */
    method HandleSendMessage(message: string, emotionalState: Option<string>, connectionTest: bool, defaultIndex: nat,
                             gemini: GeminiService, sdk: (nat, string) -> SdkReply, now: int)
      returns (reply: string)
      requires Valid()
      requires defaultIndex < DefaultResponseCount
      modifies this, gemini
      ensures Valid()
      ensures !isTyping
      ensures delivered == if chatBoxAttached then old(delivered) + [reply] else old(delivered)
      ensures apiConnected == if old(apiConnected).None? then Some(connectionTest) else old(apiConnected)
      ensures chatBoxAttached == old(chatBoxAttached) && lastClarificationTime == old(lastClarificationTime)
      ensures old(apiConnected).None? && !connectionTest ==> reply == MockResponse(message, defaultIndex) && unchanged(gemini)
      ensures (old(apiConnected).Some? || connectionTest) && !gemini.configured ==> reply == ConfigurationError
      ensures (old(apiConnected).Some? || connectionTest) && gemini.configured ==> (
        var r := sdk(gemini.ActiveModel(), FullPrompt(BuildSystemPrompt(emotionalState), message));
        && (r.Reply? ==> (&& reply == r.text
              && gemini.conversationHistory == old(gemini.conversationHistory) + [Exchange(message, r.text, emotionalState, now)]))
        && (r.Failure? ==> gemini.conversationHistory == old(gemini.conversationHistory))
        && (r.Failure? && r.error.message.Some? ==> reply == GetErrorResponse(r.error))
        && (r.Failure? && r.error.message.None? ==>
              reply == if old(apiConnected) == Some(false) then TroubleConnecting else MockResponse(message, defaultIndex)))
    {
      var connectedAtCall := BeginSendMessage();
      ghost var asked;
      reply, asked := CompleteSendMessage(message, emotionalState, connectedAtCall, connectionTest, defaultIndex,
                                          gemini, sdk, now);
    }

    /** clearConversation: forget the model's history and empty the chat box. */
    method ClearConversation(gemini: GeminiService)
      requires Valid()
      modifies this, gemini
      ensures Valid()
      ensures gemini.conversationHistory == [] && gemini.currentModelIndex == old(gemini.currentModelIndex)
      ensures delivered == if chatBoxAttached then [] else old(delivered)
      ensures isTyping == old(isTyping) && chatBoxAttached == old(chatBoxAttached)
      ensures apiConnected == old(apiConnected) && lastClarificationTime == old(lastClarificationTime)
    {
      gemini.ClearHistory();
      if chatBoxAttached {
        delivered := [];
      }
    }
  }
}
