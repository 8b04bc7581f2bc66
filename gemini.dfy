/** GeminiService without the SDK: the prompt builder, the error classifier, the
    model fallback list and the conversation history. Every SDK call becomes a
    parameter `sdk(model, prompt)` giving the reply of the model at that index. */
module Gemini {
  import opened Types
  import opened Text

  const ModelNames: seq<string> :=
    ["gemini-2.5-flash", "gemini-1.5-flash-latest", "gemini-1.5-flash", "gemini-1.0-pro", "gemini-pro"]

  const ConfigurationError: string :=
    "\U{26A0}\U{FE0F} API Configuration Error: The Gemini API key is not configured. Please check your .env file."

  const AutoClarificationUser: string := "[AUTO-CLARIFICATION]"

  // ---- buildSystemPrompt ----

  const BasePrompt: string :=
    "You are SynapCity, an emotion-aware AI tutor designed to help students learn effectively. You should:\n\n"
    + "- Provide clear, educational explanations\n"
    + "- Break down complex topics into understandable parts\n"
    + "- Use examples and analogies when helpful\n"
    + "- Ask follow-up questions to ensure understanding\n"
    + "- Be encouraging and supportive\n"
    + "- Adapt your teaching style based on the student's needs\n\n"
    + "Keep responses concise but comprehensive (2-4 paragraphs maximum)."

  /** The instruction appended for each known state. */
  function StateSuffix(s: LearningState): string
  {
    "\n\nIMPORTANT: The student appears " + StateInstruction(s)
  }

  function StateInstruction(s: LearningState): string
  {
    match s
    case Confused => "confused. Provide a simpler explanation, break the topic into smaller steps, and use concrete examples. Ask if they need clarification on any specific part."
    case Bored => "bored or disengaged. Make your explanation more engaging with interesting facts, real-world applications, or interactive questions. Use analogies and make it fun!"
    case Focused => "focused and engaged. You can provide more detailed information and introduce advanced concepts. Feel free to ask deeper questions."
    case Tired => "tired or fatigued. Keep your explanation brief and easy to follow. Consider suggesting a short break or review of key points."
  }

  /** The instruction appended for any other state text. */
  function GenericSuffix(state: string): string
  {
    GenericOpen + state + GenericClose
  }

  const GenericOpen: string := "\n\nThe student's emotional state is: "
  const GenericClose: string := ". Adapt your response accordingly."

  /** The state a text names, compared after lower-casing. */
  function ParseState(state: string): (r: Option<LearningState>)
    ensures forall s :: Lower(state) == StateName(s) ==> r == Some(s)
    ensures r.Some? ==> Lower(state) == StateName(r.value)
  {
    var lower := Lower(state);
    if lower == "confused" then Some(Confused)
    else if lower == "bored" then Some(Bored)
    else if lower == "focused" then Some(Focused)
    else if lower == "tired" then Some(Tired)
    else None
  }

  function BuildSystemPrompt(emotionalState: Option<string>): string
  {
    if emotionalState.None? || emotionalState.value == "" then BasePrompt
    else
      var suffix := match ParseState(emotionalState.value)
        case Some(s) => StateSuffix(s)
        case None => GenericSuffix(emotionalState.value);
      BasePrompt + suffix
  }

  /** Every prompt starts with the base prompt; no state (null, or the empty
      string, which is falsy) leaves it alone, and any other state extends it. */
  lemma BuildSystemPromptBase(emotionalState: Option<string>)
    ensures StartsWith(BuildSystemPrompt(emotionalState), BasePrompt)
    ensures BuildSystemPrompt(emotionalState) == BasePrompt <==> emotionalState.None? || emotionalState.value == ""
  {
    if emotionalState.None? || emotionalState.value == "" {
      StartsWithAppend(BasePrompt, []);
      assert BasePrompt + [] == BasePrompt;
    } else {
      var suffix := match ParseState(emotionalState.value)
        case Some(s) => StateSuffix(s)
        case None => GenericSuffix(emotionalState.value);
      StartsWithAppend(BasePrompt, suffix);
      assert |suffix| > 0;
    }
  }

  /** Each known state, in any letter case, appends its own instruction; any other
      non-empty text appends the generic instruction, which quotes the text. */
  lemma BuildSystemPromptCases(state: string)
    ensures forall s :: Lower(state) == StateName(s) ==> BuildSystemPrompt(Some(state)) == BasePrompt + StateSuffix(s)
    ensures state != "" && ParseState(state).None? ==>
      && BuildSystemPrompt(Some(state)) == BasePrompt + GenericSuffix(state)
      && Contains(BuildSystemPrompt(Some(state)), state)
  {
    if state != "" && ParseState(state).None? {
      QuotedShape(BasePrompt, GenericOpen, state, GenericClose);
    }
  }

  const StudentOpen: string := "\n\nStudent: "
  const TutorClose: string := "\n\nSynapCity:"

  /** `${systemPrompt}\n\nStudent: ${userMessage}\n\nSynapCity:` */
  function FullPrompt(systemPrompt: string, userMessage: string): string
  {
    systemPrompt + (StudentOpen + userMessage + TutorClose)
  }

  /** The prompt leads with the system prompt and carries the student's message. */
  lemma FullPromptShape(systemPrompt: string, userMessage: string)
    ensures StartsWith(FullPrompt(systemPrompt, userMessage), systemPrompt)
    ensures Contains(FullPrompt(systemPrompt, userMessage), userMessage)
  {
    QuotedShape(systemPrompt, StudentOpen, userMessage, TutorClose);
  }

  const SimplifyIntro: string :=
    "The student just looked confused after reading your explanation.\n\nTheir question was: \""
  const SimplifyBetween: string := "\"\n\nYour previous answer was: \""
  const SimplifyRules: string :=
    "\"\n\nPlease provide a MUCH SIMPLER explanation:\n"
    + "- Use only 2-3 SHORT sentences\n"
    + "- Include ONE easy real-world example\n"
    + "- Use simple everyday language (no technical terms)\n"
    + "- Focus ONLY on the main idea\n\n"
    + "Start with: \"Let me explain that more simply...\""

  /** The prompt of generateSimplifiedExplanation, quoting the last question and answer. */
  function SimplifyPrompt(question: string, answer: string): string
  {
    SimplifyIntro + (question + (SimplifyBetween + answer + SimplifyRules))
  }

  /** The simplification request quotes both the question and the answer. */
  lemma SimplifyPromptQuotes(question: string, answer: string)
    ensures StartsWith(SimplifyPrompt(question, answer), SimplifyIntro)
    ensures Contains(SimplifyPrompt(question, answer), question)
    ensures Contains(SimplifyPrompt(question, answer), answer)
  {
    TwoQuotedShape(SimplifyIntro, question, SimplifyBetween, answer, SimplifyRules);
  }

  // ---- getErrorResponse ----

  /** An error the SDK raises: its `message` (possibly undefined) and its toString(). */
  datatype SdkError = SdkError(message: Option<string>, asString: string)

  /** What one request to one model yields. */
  datatype SdkReply = Reply(text: string) | Failure(error: SdkError)

  /** `error.message?.toLowerCase() || ''` */
  function LowerMessage(e: SdkError): string
  {
    if e.message.Some? then Lower(e.message.value) else ""
  }

  predicate KeyProblem(m: string) { Contains(m, "api key") || Contains(m, "invalid") || Contains(m, "unauthorized") }
  predicate RateProblem(m: string) { Contains(m, "quota") || Contains(m, "rate limit") }
  predicate SafetyProblem(m: string) { Contains(m, "blocked") || Contains(m, "safety") }
  predicate NetworkProblem(m: string, s: string)
  {
    Contains(m, "fetch failed") || Contains(m, "network") || Contains(s, "failed to fetch")
  }
  predicate CorsProblem(m: string) { Contains(m, "cors") }

  datatype ErrorKind = KeyError | RateLimit | ContentFilter | ConnectionIssue | CorsError | Unexpected

  /** The first test that matches decides: API key, then quota, then safety,
      then network, then CORS, else unexpected. */
  function ClassifyError(e: SdkError): (k: ErrorKind)
    ensures var m := LowerMessage(e); var s := Lower(e.asString);
      && (k == KeyError <==> KeyProblem(m))
      && (k == RateLimit <==> !KeyProblem(m) && RateProblem(m))
      && (k == ContentFilter <==> !KeyProblem(m) && !RateProblem(m) && SafetyProblem(m))
      && (k == ConnectionIssue <==> !KeyProblem(m) && !RateProblem(m) && !SafetyProblem(m) && NetworkProblem(m, s))
      && (k == CorsError <==> !KeyProblem(m) && !RateProblem(m) && !SafetyProblem(m) && !NetworkProblem(m, s) && CorsProblem(m))
      && (k == Unexpected <==> !KeyProblem(m) && !RateProblem(m) && !SafetyProblem(m) && !NetworkProblem(m, s) && !CorsProblem(m))
  {
    var m := LowerMessage(e);
    if KeyProblem(m) then KeyError
    else if RateProblem(m) then RateLimit
    else if SafetyProblem(m) then ContentFilter
    else if NetworkProblem(m, Lower(e.asString)) then ConnectionIssue
    else if CorsProblem(m) then CorsError
    else Unexpected
  }

  /** A message spelling "KEY" with the Kelvin sign still names the API key,
      since toLowerCase turns that sign into 'k'. */
  lemma KelvinSignKeyError(asString: string)
    ensures ClassifyError(SdkError(Some("API \U{212A}EY"), asString)) == KeyError
  {
    var m := Lower("API \U{212A}EY");
    assert m == "api key";
    assert StartsWith(m, "api key");
  }

  /** `error.message || 'An unknown error occurred'` */
  function ShownMessage(e: SdkError): string
  {
    if e.message.Some? && e.message.value != "" then e.message.value else "An unknown error occurred"
  }

  function ErrorText(k: ErrorKind, e: SdkError): string
  {
    match k
    case KeyError => "\U{26A0}\U{FE0F} API Key Error: There seems to be an issue with the API key. Please verify it's correct and has the necessary permissions."
    case RateLimit => "\U{23F1}\U{FE0F} Rate Limit: I'm experiencing high demand right now. Please wait a moment and try again."
    case ContentFilter => "\U{1F6E1}\U{FE0F} Content Filter: This question triggered a safety filter. Please try rephrasing it differently."
    case ConnectionIssue => "\U{1F310} Connection Issue: Unable to reach the AI server. Please check:\n\n1. Your internet connection\n2. If you're behind a firewall or VPN\n3. Try refreshing the page\n\nIf the problem persists, the API key might need to be regenerated."
    case CorsError => "\U{1F512} CORS Error: There's a cross-origin issue. This might be due to browser security settings."
    case Unexpected => "\U{274C} Unexpected Error: " + ShownMessage(e) + "\n\nPlease try:\n1. Refreshing the page\n2. Checking your internet connection\n3. Trying a different question"
  }

  function GetErrorResponse(e: SdkError): string
  {
    ErrorText(ClassifyError(e), e)
  }

  /** An unclassified error shows its own message, in its original letter case. */
  lemma UnexpectedErrorQuotesMessage(e: SdkError)
    requires ClassifyError(e) == Unexpected && e.message.Some? && e.message.value != ""
    ensures Contains(GetErrorResponse(e), e.message.value)
  {
    ContainsInfix("\U{274C} Unexpected Error: ", e.message.value,
      "\n\nPlease try:\n1. Refreshing the page\n2. Checking your internet connection\n3. Trying a different question");
  }

  /** The test generateResponse applies, case-sensitively, before moving to the next model. */
  predicate ModelNotFound(r: SdkReply)
  {
    r.Failure? && r.error.message.Some?
    && (Contains(r.error.message.value, "404") || Contains(r.error.message.value, "not found"))
  }

  // ---- the service ----

  /** One conversationHistory entry. */
  datatype Exchange = Exchange(user: string, ai: string, emotion: Option<string>, timestamp: int)

  datatype QA = QA(question: string, answer: string)

  /** The outcome of generateResponse: the text it resolves to, or a rejection. It
      rejects when the SDK error has no message, since the catch block then calls
      `includes` on undefined. */
  datatype Response = Returned(text: string) | Threw

  class GeminiService {
    /** Whether an API key was present, so that a model exists. */
    const configured: bool
    var currentModelIndex: nat
    var conversationHistory: seq<Exchange>

    constructor(apiKeyPresent: bool)
      ensures configured == apiKeyPresent
      ensures currentModelIndex == 0 && conversationHistory == []
    {
      configured := apiKeyPresent;
      currentModelIndex := 0;
      conversationHistory := [];
    }

    /** The index of the model this.model was last initialised with: the index
        itself while it is in range, and the last model once it has run past. */
    function ActiveModel(): (r: nat)
      reads this
      ensures r < |ModelNames|
      ensures currentModelIndex < |ModelNames| ==> r == currentModelIndex
    {
      if currentModelIndex < |ModelNames| then currentModelIndex else |ModelNames| - 1
    }

    method TryNextModel() returns (advanced: bool)
      modifies this
      ensures currentModelIndex == old(currentModelIndex) + 1
      ensures advanced <==> currentModelIndex < |ModelNames|
      ensures advanced ==> ActiveModel() == currentModelIndex
      ensures !advanced ==> ActiveModel() == old(ActiveModel())
      ensures conversationHistory == old(conversationHistory)
    {
      currentModelIndex := currentModelIndex + 1;
      if currentModelIndex < |ModelNames| {
        return true;
      }
      return false;
    }

    /** generateResponse. The request goes to the active model; a not-found failure
        moves to the next model and retries, until the list runs out. */
    method GenerateResponse(userMessage: string, emotionalState: Option<string>, sdk: (nat, string) -> SdkReply, now: int)
      returns (response: Response)
      modifies this
      decreases |ModelNames| - ActiveModel(), if currentModelIndex < |ModelNames| then 1 else 0
      ensures !configured ==> response == Returned(ConfigurationError) && unchanged(this)
      ensures configured ==>
        var prompt := FullPrompt(BuildSystemPrompt(emotionalState), userMessage);
        var reply := sdk(ActiveModel(), prompt);
        // every model tried before the last one answered "not found"
        && (forall i :: old(ActiveModel()) <= i < ActiveModel() ==> ModelNotFound(sdk(i, prompt)))
        && (reply.Reply? ==>
              && response == Returned(reply.text)
              && conversationHistory == old(conversationHistory) + [Exchange(userMessage, reply.text, emotionalState, now)])
        && (reply.Failure? ==>
              && conversationHistory == old(conversationHistory)
              && response == if reply.error.message.None? then Threw else Returned(GetErrorResponse(reply.error)))
        && (ModelNotFound(reply) ==> currentModelIndex >= |ModelNames|)
        // a model that answered leaves the index where that model stands
        && (!ModelNotFound(reply) ==> currentModelIndex == old(currentModelIndex) + (ActiveModel() - old(ActiveModel())))
      ensures old(ActiveModel()) <= ActiveModel()
      ensures old(currentModelIndex) <= currentModelIndex
      ensures currentModelIndex <= if old(currentModelIndex) < |ModelNames| then |ModelNames| else old(currentModelIndex) + 1
    {
      if !configured {
        return Returned(ConfigurationError);
      }
      var systemPrompt := BuildSystemPrompt(emotionalState);
      var fullPrompt := FullPrompt(systemPrompt, userMessage);
      var reply := sdk(ActiveModel(), fullPrompt);
      if reply.Reply? {
        conversationHistory := conversationHistory + [Exchange(userMessage, reply.text, emotionalState, now)];
        return Returned(reply.text);
      }
      var error := reply.error;
      if error.message.None? {
        return Threw;
      }
      if Contains(error.message.value, "404") || Contains(error.message.value, "not found") {
        ghost var failedModel := ActiveModel();
        assert ModelNotFound(sdk(failedModel, fullPrompt));
        var hasNextModel := TryNextModel();
        if hasNextModel {
          ghost var nextModel := ActiveModel();
          assert nextModel == failedModel + 1;
          response := GenerateResponse(userMessage, emotionalState, sdk, now);
          assert forall i :: nextModel <= i < ActiveModel() ==> ModelNotFound(sdk(i, fullPrompt));
          forall i | failedModel <= i < ActiveModel() ensures ModelNotFound(sdk(i, fullPrompt)) {
            if i == failedModel {
              assert ModelNotFound(sdk(failedModel, fullPrompt));
            }
          }
          return;
        }
      }
      return Returned(GetErrorResponse(error));
    }

    function GetLastUserQuestion(): (r: Option<QA>)
      reads this
      ensures r.None? <==> |conversationHistory| == 0
      ensures r.Some? ==> var last := conversationHistory[|conversationHistory| - 1];
        r.value.question == last.user && r.value.answer == last.ai
    {
      if |conversationHistory| == 0 then None
      else
        var lastEntry := conversationHistory[|conversationHistory| - 1];
        Some(QA(lastEntry.user, lastEntry.ai))
    }

    /** generateSimplifiedExplanation: re-ask the active model about the last
        exchange; None when there is no model, no history or the request fails. */
    method GenerateSimplifiedExplanation(sdk: (nat, string) -> SdkReply, now: int) returns (r: Option<string>)
      modifies this
      ensures currentModelIndex == old(currentModelIndex)
      ensures !configured || |old(conversationHistory)| == 0 ==> r.None? && unchanged(this)
      ensures configured && |old(conversationHistory)| > 0 ==>
        var last := old(conversationHistory)[|old(conversationHistory)| - 1];
        var reply := sdk(ActiveModel(), SimplifyPrompt(last.user, last.ai));
        && (reply.Reply? ==>
              && r == Some(reply.text)
              && conversationHistory == old(conversationHistory) + [Exchange(AutoClarificationUser, reply.text, Some("confused"), now)])
        && (reply.Failure? ==> r.None? && conversationHistory == old(conversationHistory))
    {
      if !configured {
        return None;
      }
      var lastQA := GetLastUserQuestion();
      if lastQA.None? {
        return None;
      }
      var simplifyPrompt := SimplifyPrompt(lastQA.value.question, lastQA.value.answer);
      var reply := sdk(ActiveModel(), simplifyPrompt);
      if reply.Failure? {
        return None;
      }
      conversationHistory := conversationHistory + [Exchange(AutoClarificationUser, reply.text, Some("confused"), now)];
      return Some(reply.text);
    }

    method ClearHistory()
      modifies this
      ensures conversationHistory == []
      ensures currentModelIndex == old(currentModelIndex)
    {
      conversationHistory := [];
    }
  }
}
