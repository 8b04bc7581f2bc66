/** The App component's own logic: which emotion transitions trigger an
    auto-clarification, how outgoing messages are tagged, and the status
    indicator. */
module App {
  import opened Types
  import opened Gemini
  import opened EmotionHistory
  import opened Webcam
  import opened Chat

  /** handleEmotionTransition: only a move from focused to confused asks for a
      clarification. */
  predicate ShouldClarify(t: Transition)
  {
    t.from == Focused && t.to == Confused
  }

  /** The callback registered with the webcam hook, fed with the transition (if
      any) that a captured frame produced. */
  method HandleEmotionTransition(transition: Option<Transition>, chat: ChatState, gemini: GeminiService,
                                 sdk: (nat, string) -> SdkReply, now: int)
    returns (clarification: Option<string>)
    requires chat.Valid()
    modifies chat, gemini
    ensures chat.Valid()
    ensures !(transition.Some? && ShouldClarify(transition.value)) ==>
      clarification.None? && unchanged(chat) && unchanged(gemini)
    // a clarification is shown exactly when one was produced, the chat box is
    // attached and the cooldown let the request through
    ensures (&& transition.Some? && ShouldClarify(transition.value) && clarification.Some?
             && clarification.value != "" && chat.chatBoxAttached) ==>
      && chat.delivered == old(chat.delivered) + [AutoClarificationPrefix + clarification.value]
      && chat.lastClarificationTime == Some(now)
      && chat.clarificationTimes == old(chat.clarificationTimes) + [now]
    // otherwise nothing is shown and the cooldown is not restarted
    ensures !(clarification.Some? && clarification.value != "" && chat.chatBoxAttached) ==>
      && chat.delivered == old(chat.delivered) && chat.lastClarificationTime == old(chat.lastClarificationTime)
      && chat.clarificationTimes == old(chat.clarificationTimes)
    ensures chat.chatBoxAttached == old(chat.chatBoxAttached)
    ensures chat.isTyping == old(chat.isTyping) && chat.apiConnected == old(chat.apiConnected)
    ensures gemini.currentModelIndex == old(gemini.currentModelIndex)
    // focused to confused: blocked while the tutor is typing or the cooldown runs
    ensures (&& transition.Some? && ShouldClarify(transition.value)
             && (chat.isTyping || CooldownActive(old(chat.lastClarificationTime), now))) ==>
      clarification.None? && unchanged(chat) && unchanged(gemini)
    // focused to confused, not blocked, but no model or nothing to simplify
    ensures (&& transition.Some? && ShouldClarify(transition.value)
             && !chat.isTyping && !CooldownActive(old(chat.lastClarificationTime), now)
             && (!gemini.configured || |old(gemini.conversationHistory)| == 0)) ==>
      clarification.None? && unchanged(gemini)
    // focused to confused, not blocked: the tutor is asked to simplify its last answer
    ensures (&& transition.Some? && ShouldClarify(transition.value)
             && !chat.isTyping && !CooldownActive(old(chat.lastClarificationTime), now)
             && gemini.configured && |old(gemini.conversationHistory)| > 0) ==>
      var last := old(gemini.conversationHistory)[|old(gemini.conversationHistory)| - 1];
      var reply := sdk(gemini.ActiveModel(), SimplifyPrompt(last.user, last.ai));
      && clarification == (if reply.Reply? then Some(reply.text) else None)
      && gemini.conversationHistory == if reply.Reply?
           then old(gemini.conversationHistory) + [Exchange(AutoClarificationUser, reply.text, Some("confused"), now)]
           else old(gemini.conversationHistory)
  {
    clarification := None;
    if transition.Some? && ShouldClarify(transition.value) {
      clarification := chat.HandleConfusedState(gemini, sdk, now);
    }
  }

  /** The emotion handed to the tutor: the state's own name. */
  function EmotionTag(s: Option<LearningState>): (r: Option<string>)
    ensures r.None? <==> s.None?
    ensures s.Some? ==> r == Some(StateName(s.value))
  {
    match s
    case None => None
    case Some(state) => Some(StateName(state))
  }

  /** Tags are as distinct as the states they name. */
  lemma EmotionTagInjective(a: Option<LearningState>, b: Option<LearningState>)
    ensures EmotionTag(a) == EmotionTag(b) ==> a == b
  {
    if a.Some? && b.Some? && EmotionTag(a) == EmotionTag(b) {
      StateNameInjective(a.value, b.value);
    }
  }

  /** handleMessageWithEmotion: send the message tagged with the weighted vote of
      the last 30 seconds of detections at the time of sending. */
  method HandleMessageWithEmotion(webcam: WebcamState, chat: ChatState, gemini: GeminiService, message: string,
                                  connectionTest: bool, defaultIndex: nat,
                                  sdk: (nat, string) -> SdkReply, now: int)
    returns (tag: Option<string>, reply: string)
    requires chat.Valid()
    requires defaultIndex < DefaultResponseCount
    modifies chat, gemini
    ensures chat.Valid()
    ensures tag == EmotionTag(MostFrequent(webcam.emotionHistory, webcam.currentEmotion, now))
    ensures !chat.isTyping
    ensures chat.delivered == if chat.chatBoxAttached then old(chat.delivered) + [reply] else old(chat.delivered)
    ensures chat.chatBoxAttached == old(chat.chatBoxAttached) && chat.lastClarificationTime == old(chat.lastClarificationTime)
    ensures chat.apiConnected == if old(chat.apiConnected).None? then Some(connectionTest) else old(chat.apiConnected)
    ensures old(chat.apiConnected).None? && !connectionTest ==> reply == MockResponse(message, defaultIndex) && unchanged(gemini)
    // the tag is what the prompt is built from
    ensures (old(chat.apiConnected).Some? || connectionTest) && gemini.configured ==> (
      var r := sdk(gemini.ActiveModel(), FullPrompt(BuildSystemPrompt(tag), message));
      && (r.Reply? ==> reply == r.text && gemini.conversationHistory == old(gemini.conversationHistory) + [Exchange(message, r.text, tag, now)])
      && (r.Failure? ==> gemini.conversationHistory == old(gemini.conversationHistory)))
  {
    var emotion := webcam.GetMostFrequentEmotion(now);
    tag := EmotionTag(emotion);
    reply := chat.HandleSendMessage(message, tag, connectionTest, defaultIndex, gemini, sdk, now);
  }

  /** The text of the status indicator, by fixed priority. */
  datatype Status = LoadingModels | ModelsFailed | Connecting | TutorOnline | TutorOffline

  function StatusOf(isLoadingModels: bool, modelsLoaded: bool, apiConnected: Option<bool>): (s: Status)
    ensures s == LoadingModels <==> isLoadingModels
    ensures s == ModelsFailed <==> !isLoadingModels && !modelsLoaded
    ensures s == Connecting <==> !isLoadingModels && modelsLoaded && apiConnected.None?
    ensures s == TutorOnline <==> !isLoadingModels && modelsLoaded && apiConnected == Some(true)
    ensures s == TutorOffline <==> !isLoadingModels && modelsLoaded && apiConnected == Some(false)
  {
    if isLoadingModels then LoadingModels
    else if !modelsLoaded then ModelsFailed
    else if apiConnected.None? then Connecting
    else if apiConnected.value then TutorOnline
    else TutorOffline
  }

  function StatusText(s: Status): string
  {
    match s
    case LoadingModels => "\U{1F4E6} Loading AI Models..."
    case ModelsFailed => "\U{26A0}\U{FE0F} Models Failed"
    case Connecting => "\U{1F504} Connecting..."
    case TutorOnline => "\U{1F916} AI Tutor Online"
    case TutorOffline => "\U{26A0}\U{FE0F} AI Offline"
  }

  /** `$active`: green unless the connection is known to be down or the models are
      missing; an untested connection counts as up. */
  predicate IndicatorActive(modelsLoaded: bool, apiConnected: Option<bool>)
  {
    apiConnected != Some(false) && modelsLoaded
  }

  /** The colour and the text agree once loading is over: the indicator is green
      exactly when the label says online or connecting. While models load the
      label hides the colour, which 'modelsLoaded' alone decides. */
  lemma IndicatorMatchesStatus(isLoadingModels: bool, modelsLoaded: bool, apiConnected: Option<bool>)
    ensures !isLoadingModels ==>
      (IndicatorActive(modelsLoaded, apiConnected) <==>
        StatusOf(isLoadingModels, modelsLoaded, apiConnected) in {Connecting, TutorOnline})
    ensures StatusOf(isLoadingModels, modelsLoaded, apiConnected) == TutorOffline ==> !IndicatorActive(modelsLoaded, apiConnected)
  {
  }
}
