# SynapCity learning-state pipeline in Dafny

SynapCity is a webcam-aware AI tutor. Every second the browser grabs a frame. A
face model yields seven expression probabilities and 68 landmark points. The
detection service (`FaceDetectionService`) does the rest:

- it turns the landmarks into six normalised facial metrics;
- it smooths those metrics with an exponential moving average and keeps a 5-frame history;
- it classifies the frame as focused, confused, bored or tired;
- it scores its confidence in that classification.

The webcam hook (`useWebcam`) decides which detections to accept. It keeps a
20-entry history and reports state transitions. It also names the dominant state
of the last 30 seconds by a confidence- and recency-weighted vote.

The chat hook (`useChatBox`) reacts to a focused→confused transition by asking
the tutor for a simpler re-explanation. It skips the request while the tutor is
typing or within 10 seconds of the last clarification it showed, so calls that do
not overlap show at most one clarification per 10-second cooldown; a request whose
answer is not shown starts no cooldown. When sending a message fails by throwing
(a failed first connection test, or an SDK error without a message), the hook
shows a keyword responder's answer, unless the connection flag it captured at send
time was `false`, in which case it shows a connection-trouble message. Other SDK
errors are answered with the error classifier's text. `GeminiService` contributes
three things:

- it builds the emotion-aware system prompt;
- it classifies SDK errors into user-facing messages;
- it walks a list of five fallback models when one is not found.

It also keeps the conversation history.

The model follows the repository's shape:

- Pure logic is written as functions with lemmas: landmark analysis, the two
  classifiers, confidence, the prompt builder, the error classifier, the keyword
  responder and the weighted vote.
- Objects whose fields the source updates become classes with `modifies` frames:
  the detection service, the webcam hook state, the Gemini service and the chat
  hook state.
- Loops in the source become methods with loop invariants, each proved equal to
  its specification function: `smoothMetrics`, `calculateVariance`,
  `getDominantExpression`, the filter/score/reduce of `getMostFrequentEmotion`
  and `generateMockResponse`.

Arithmetic is on `real`, and times are integer milliseconds passed in as `now`.
The face model, the video element, the SDK and `Math.random` are parameters;
`sdk(model, prompt)` is the reply of the model at that index to that prompt.

Three behaviours of the code shape the model:

- **Acceptance.** A detection that passes the acceptance gate becomes the
  current state at once and reports its transition.
- **Vote ties.** A tie in the weighted vote goes to the state that first
  appeared later.
- **Cooldown.** The clarification cooldown is 10000 ms. A stored clarification
  time of 0 is falsy and starts no cooldown.

## Model

| member | source | states |
|---|---|---|
| Numeric.Min | src/services/faceDetectionService.js:155 | the result is at most both arguments and is one of them |
| Numeric.Max | src/services/faceDetectionService.js:155 | the result is at least both arguments and is one of them |
| Numeric.Abs | src/services/faceDetectionService.js:161 | the result is non-negative and is the argument or its negation |
| Numeric.Clamp | src/services/faceDetectionService.js:155 | `Math.max(lo, Math.min(hi, x))` lies in [lo, hi], is x inside the range and the nearer bound outside it |
| Numeric.Round | src/services/faceDetectionService.js:462 | `Math.round` gives the integer within half a unit of x, halves rounding up |
| Numeric.MaxOf | src/services/faceDetectionService.js:313 | `Math.max(...values)` bounds every element and is one of them |
| Numeric.SumAtMostCountTimesMax | src/services/faceDetectionService.js:313-314 | a sum is at most the count times the maximum, so the mean never exceeds the maximum |
| Numeric.SumMonotone | src/services/faceDetectionService.js:364 | element-wise smaller sequences have smaller sums |
| Numeric.SumNonNegative | src/services/faceDetectionService.js:364 | a sum of non-negative terms is non-negative |
| Numeric.SumConstant | src/services/faceDetectionService.js:363 | a sum of n copies of c is n·c |
| Text.LowerChar | src/services/geminiService.js:217 | `toLowerCase` on one character: A–Z become a–z, the Kelvin sign becomes k, every other character is kept, and no A–Z capital or Kelvin sign remains |
| Text.Lower | src/services/geminiService.js:217 | lower-casing applies LowerChar to each character and keeps the length |
| Text.LowerIdempotent | src/services/geminiService.js:195 | lower-casing twice is lower-casing once |
| Text.ContainsIff | src/hooks/useChatBox.js:154 | `includes` holds exactly when the text occurs at some position |
| Text.ContainsInfix | src/services/geminiService.js:209 | a text built around a piece includes that piece |
| Text.StartsWithAppend | src/services/geminiService.js:209 | a text starts with any prefix it was built from |
| Text.QuotedShape | src/hooks/useChatBox.js:163 | a text of the form head + open + piece + close starts with head and contains the piece |
| Text.TwoQuotedShape | src/services/geminiService.js:144-156 | a text that quotes two pieces between fixed parts starts with its opening and contains both pieces |
| Text.DigitChar | src/services/faceDetectionService.js:463 | the character of digit d: between '0' and '9', and its code minus that of '0' is d |
| Text.NatToString | src/services/faceDetectionService.js:463 | the decimal text of a natural number is non-empty, all digits, and has no leading zero |
| Text.NatToStringRoundTrip | src/services/faceDetectionService.js:463 | the rendered digits read back as a decimal number give the number itself |
| Text.IntToString | src/services/faceDetectionService.js:463 | a negative integer renders as '-' followed by the digits of its magnitude, any other as its digits; the text starts with '-' exactly for negative numbers |
| Text.IntToStringRoundTrip | src/services/faceDetectionService.js:463 | reading the rendering back, after its sign, gives the integer |
| Types.StateName | src/services/faceDetectionService.js:267 | the state strings 'focused', 'confused', 'bored' and 'tired' are non-empty |
| Types.StateNameInjective | src/services/geminiService.js:195-207 | distinct states have distinct names |
| Types.EmotionOrderComplete | src/services/faceDetectionService.js:416 | the iteration order of the expression object lists every emotion |
| Types.Rank | src/services/faceDetectionService.js:459 | each emotion has a position in the iteration order and is found there |
| Types.ExpressionValues | src/services/faceDetectionService.js:312 | `Object.values(expressions)` has seven entries, in key order |
| Types.KeyRank | src/services/faceDetectionService.js:211 | each metric key has a position in the key order of the metric record |
| Types.MetricKeysDistinct | src/services/faceDetectionService.js:195-202 | the six metric keys are distinct and are exactly the keys of the record |
| Types.MetricsFromMap | src/services/faceDetectionService.js:209-220 | a record read back from a map with all six keys holds the map's values |
| Landmarks.AnalyzeLandmarks | src/services/faceDetectionService.js:137-203 | all six metrics lie in [0, 1] for every 68-point face with positive jaw width |
| Landmarks.Saturation | src/services/faceDetectionService.js:154-193 | each metric saturates at 1 or 0 exactly at its normalising distance (15, 0.6·jaw, 8, 20, 20, 10) and is linear below it |
| Landmarks.RatioAtLeastOne | src/services/faceDetectionService.js:157 | for a positive divisor the ratio reaches 1 exactly when the dividend reaches the divisor |
| Landmarks.Translate | src/services/faceDetectionService.js:138 | shifting a face moves every point by the same offset |
| Landmarks.TranslationInvariant | src/services/faceDetectionService.js:149-193 | the metrics of a face do not change when the whole face is shifted |
| Landmarks.OpennessIgnoresVerticalFlip | src/services/faceDetectionService.js:161-177 | eye openness, mouth opening and smile width use absolute distances, so a vertically mirrored face has the same values |
| Classifier.MapToLearningStateAdvanced | src/services/faceDetectionService.js:255-304 | eyebrow raise > 0.3 or surprise > 0.2 always means confused; each state holds exactly when its rule fires and the earlier rules (confused, tired, bored) do not |
| Classifier.FocusedMeansAttentiveFace | src/services/faceDetectionService.js:265-304 | a focused frame has eye openness ≥ 0.55, no raised brows or surprise, sadness ≤ 0.10, mouth corners ≤ 0.25, and eye openness ≥ 0.65 when neutral > 0.6 |
| Classifier.FocusedNeedsOpenEyesAndSmile | src/services/faceDetectionService.js:271-304 | with metrics in [0, 1], focused needs eye openness > 0.7 and smile width > 0.1, because the tired and bored scores must stay below their thresholds |
| Classifier.ClosedEyesWithoutConfusionIsTired | src/services/faceDetectionService.js:281 | eye openness below 0.55 without the confusion rule classifies as tired |
| Classifier.CountAbove | src/services/faceDetectionService.js:379-380 | the filtered count is at most the number of values |
| Classifier.CountAboveSnoc | src/services/faceDetectionService.js:379-380 | appending a value adds one to the count exactly when it passes the threshold |
| Classifier.CountAboveCounts | src/services/faceDetectionService.js:379-380 | the filtered length is the number of positions whose value is above the threshold |
| Classifier.MapToLearningState | src/services/faceDetectionService.js:372-410 | surprise > 0.25 or fear > 0.2 means confused; the legacy rules are tried in the order confused, bored, tired, else focused |
| Classifier.LegacyTiredHasMildSadness | src/services/faceDetectionService.js:375-399 | a legacy tired result implies sadness ≤ 0.25, disgust ≤ 0.2, surprise ≤ 0.25 and fear ≤ 0.2 |
| Classifier.MixedExpressionsAreConfused | src/services/faceDetectionService.js:379-383 | three significant emotions with neutral < 0.4 classify as confused |
| Confidence.ExpressionClarity | src/services/faceDetectionService.js:312-315 | expression clarity, twice the gap between maximum and mean, capped at 1, lies in [0, 1] |
| Confidence.LandmarkClarityInUnitRange | src/services/faceDetectionService.js:318-332 | for metrics in [0, 1] the state-specific landmark clarity lies in [0, 1] |
| Confidence.Column | src/services/faceDetectionService.js:362 | the values of one key across the frames, frame by frame |
| Confidence.SquaredDeviations | src/services/faceDetectionService.js:364 | each value's squared distance from the mean |
| Confidence.CalculateVariance | src/services/faceDetectionService.js:355-369 | the `forEach` accumulation equals the reference average of the per-key population variances, and 1 on an empty array |
| Confidence.PopulationVarianceNonNegative | src/services/faceDetectionService.js:363-364 | a population variance is never negative |
| Confidence.PopulationVarianceOfConstant | src/services/faceDetectionService.js:363-364 | constant values have variance 0 |
| Confidence.KeyVarianceTotalNonNegative | src/services/faceDetectionService.js:359-366 | the running total of key variances is never negative |
| Confidence.VarianceNonNegative | src/services/faceDetectionService.js:355-369 | `calculateVariance` is never negative |
| Confidence.KeyVarianceTotalOfIdentical | src/services/faceDetectionService.js:359-366 | identical frames contribute no variance for any key |
| Confidence.VarianceOfIdenticalFrames | src/services/faceDetectionService.js:355-369 | identical frames have variance 0 |
| Confidence.TemporalStability | src/services/faceDetectionService.js:335-340 | stability is 0.5 with fewer than 3 history frames and otherwise lies in [0.3, 1] |
| Confidence.SteadyFaceIsFullyStable | src/services/faceDetectionService.js:336-339 | three identical recent frames give stability 1 |
| Confidence.AdvancedConfidence | src/services/faceDetectionService.js:310-350 | the fused confidence always lies in [0.3, 1] |
| Confidence.AdvancedConfidenceWeights | src/services/faceDetectionService.js:343-349 | all three clarities at 1 give confidence 1; landmark clarity below 1 keeps confidence below 1 |
| Confidence.GetConfidence | src/services/faceDetectionService.js:426-456 | the legacy confidence always lies in [0.2, 1] |
| Confidence.MidNeutralFocusedConfidence | src/services/faceDetectionService.js:442-453 | a mid-range neutral face scored as focused has confidence at least 0.42 |
| ExpressionSummary.GetDominantExpression | src/services/faceDetectionService.js:412-424 | the loop returns an emotion of maximal probability with every earlier emotion strictly smaller (the first maximum wins), and 'neutral' when no probability is positive |
| ExpressionSummary.Entries | src/services/faceDetectionService.js:459-464 | one entry per emotion in key order, with value `Math.round(p·100)` and that number followed by '%' |
| ExpressionSummary.Insert | src/services/faceDetectionService.js:465 | inserting adds exactly that entry to the multiset |
| ExpressionSummary.SortByValueDescending | src/services/faceDetectionService.js:465 | the sort is a permutation of its input |
| ExpressionSummary.InsertOrdered | src/services/faceDetectionService.js:465 | inserting an entry that comes earlier in key order than all others keeps the list ordered by value, ties in key order |
| ExpressionSummary.SortOrdered | src/services/faceDetectionService.js:465 | entries in key order sort to descending value with equal values kept in key order, as a stable sort does |
| ExpressionSummary.GetEmotionBreakdown | src/services/faceDetectionService.js:458-466 | the breakdown is a permutation of the per-emotion entries |
| ExpressionSummary.EntriesFaithful | src/services/faceDetectionService.js:459-464 | each entry is the rounded percentage of its emotion |
| ExpressionSummary.EntriesInKeyOrder | src/services/faceDetectionService.js:459-464 | before sorting the entries follow the key order of the expressions |
| ExpressionSummary.PermutationKeepsFaithful | src/services/faceDetectionService.js:465 | reordering entries keeps them faithful to the expressions |
| ExpressionSummary.BreakdownSorted | src/services/faceDetectionService.js:458-466 | the breakdown has seven entries, is sorted by value descending with ties in key order, and every entry is its emotion's rounded percentage |
| FaceDetection.Smooth | src/services/faceDetectionService.js:211-217 | each smoothed key is 0.6·current + 0.4·previous, where a missing or 0 previous counts as the current value |
| FaceDetection.AsRecord | src/services/faceDetectionService.js:219 | writing a smoothed record back sets all six keys to its values |
| FaceDetection.PushBounded | src/services/faceDetectionService.js:223-226 | the history grows by one up to 5 entries, ends with the new set, and before it keeps the latest old entries in order |
| FaceDetection.PushBoundedInUnitRange | src/services/faceDetectionService.js:223-226 | pushing a record in [0, 1] onto a history in [0, 1] keeps every history entry in [0, 1] |
| FaceDetection.MetricsExtensional | src/services/faceDetectionService.js:195-202 | two metric records that agree on every key are equal |
| FaceDetection.SmoothBetween | src/services/faceDetectionService.js:213-216 | every smoothed value lies between the current value and the effective previous value |
| FaceDetection.SmoothWithoutPrevious | src/services/faceDetectionService.js:211-217 | a key whose stored previous is missing or 0 smooths to its current value; on the first frame the smoothed set is the raw set |
| FaceDetection.SmoothKeepsUnitRange | src/services/faceDetectionService.js:208-220 | smoothing values in [0, 1] against a record in [0, 1] gives values in [0, 1] and a stored record in [0, 1] |
| FaceDetection.SmoothFixedPoint | src/services/faceDetectionService.js:213-216 | a face held still, with a non-zero stored record equal to it, smooths to itself |
| FaceDetection.SmoothedPrefixKeys | src/services/faceDetectionService.js:211-220 | after the loop has visited the first k keys, exactly those keys are written, each with its smoothed value |
| FaceDetection.SmoothedPrefixComplete | src/services/faceDetectionService.js:211-220 | after all six keys the written values are the smoothed record |
| FaceDetection.FaceDetectionService.constructor | src/services/faceDetectionService.js:4-22 | models not loaded, five stored previous metrics at 0 without `mouthCornersDown`, empty history |
| FaceDetection.FaceDetectionService.LoadModels | src/services/faceDetectionService.js:24-53 | an already loaded or loading service answers its loaded flag and changes nothing; otherwise the outcome of the network load becomes the loaded flag |
| FaceDetection.FaceDetectionService.SmoothKeys | src/services/faceDetectionService.js:211-220 | the key loop returns the smoothed values of all six keys and writes them into the stored record; the history is untouched |
| FaceDetection.FaceDetectionService.SmoothMetrics | src/services/faceDetectionService.js:208-229 | the key loop returns the smoothed record, writes all six keys back into the stored record, and pushes the record onto the 5-bounded history |
| FaceDetection.FaceDetectionService.DetectEmotion | src/services/faceDetectionService.js:55-131 | no models, no ready video or no face gives null and changes nothing; otherwise the result carries the expressions, the smoothed metrics, the advanced classification, a confidence in [0.3, 1], faceDetected and the time, and metrics stay in [0, 1] |
| EmotionHistory.AppendBounded | src/hooks/useWebcam.js:84-89 | `[...prev.slice(-keep), x]` keeps at most `keep` old entries, in order, and ends with x |
| EmotionHistory.WindowMembers | src/hooks/useWebcam.js:123-125 | the window of the whole history has at most as many entries, holds exactly the entries younger than 30000 ms (strict), and is empty exactly when no entry is that young |
| EmotionHistory.WindowSingle | src/hooks/useWebcam.js:123-125 | a single entry is kept exactly when it is younger than 30000 ms |
| EmotionHistory.WindowAppend | src/hooks/useWebcam.js:123-125 | the filter keeps history order and multiplicity: the window of a concatenation is the concatenation of the windows |
| EmotionHistory.ScoreOfAbsent | src/hooks/useWebcam.js:131-142 | a state that does not occur scores 0 |
| EmotionHistory.OccursStep | src/hooks/useWebcam.js:130-142 | one more entry adds exactly its own state to the states seen |
| EmotionHistory.ScoresUpToMeaning | src/hooks/useWebcam.js:130-142 | the score dictionary has a key exactly for each occurring state, holding the sum of (confidence, or 0.5 when missing or 0)·0.7 + (i+1)/n·0.3 over its entries |
| EmotionHistory.KeysUpToOrdered | src/hooks/useWebcam.js:141-145 | `Object.entries` lists each occurring state exactly once, in order of first appearance |
| EmotionHistory.PickIndex | src/hooks/useWebcam.js:145-147 | the reduce keeps a pair of maximal score that no later pair reaches |
| EmotionHistory.TopStateIsTopScorer | src/hooks/useWebcam.js:130-147 | the chosen state occurs in the window with maximal total score; a different state with the same score appeared earlier |
| EmotionHistory.MostFrequentFallback | src/hooks/useWebcam.js:118-127 | with no entry younger than 30 s the current emotion is returned; otherwise the top scorer of the window |
| Webcam.TransitionAfter | src/hooks/useWebcam.js:67-79 | a transition is reported exactly when the last accepted state exists and differs, and it runs from that state to the new one |
| Webcam.WebcamState.constructor | src/hooks/useWebcam.js:5-19 | inactive, nothing loaded, no emotions, empty history, zero counters |
| Webcam.WebcamState.LoadModels | src/hooks/useWebcam.js:22-35 | the hook's loaded flag becomes the service's outcome and loading ends; nothing else changes |
| Webcam.WebcamState.SetVideoAttached | src/hooks/useWebcam.js:114-116 | only the video reference changes |
| Webcam.WebcamState.HandleFrameCapture | src/hooks/useWebcam.js:37-102 | a frame before models or video changes nothing; otherwise total +1; no detection means failed +1, the detector unchanged and nothing else; a detection is the detector's analysis of the reading (its expressions, landmarks smoothed against the stored record, classification and confidence), with the detector's stored record and 5-bounded history updated; acceptance iff confidence > 0.4 or the state repeats the last one; an accepted state becomes current, reports its transition, sets previousEmotion and enters the 20-bounded history; successful + failed ≤ total stays true |
| Webcam.WebcamState.RecordDetection | src/hooks/useWebcam.js:56-94 | the acceptance gate alone: a rejected detection changes nothing; an accepted one updates current, last, previous, history and successful |
| Webcam.WebcamState.HandleEmotionDetected | src/hooks/useWebcam.js:104-112 | the emotion becomes current and enters a history of at most 10 entries without confidence |
| Webcam.WebcamState.ToggleWebcam | src/hooks/useWebcam.js:158-160 | only the active flag flips |
| Webcam.WebcamState.GetMostFrequentEmotion | src/hooks/useWebcam.js:118-152 | the filter, score and reduce loops return the weighted vote of the 30-second window, or the current emotion |
| Webcam.FilterRecent | src/hooks/useWebcam.js:123-125 | the filter loop returns the 30-second window |
| Webcam.ScoreEntries | src/hooks/useWebcam.js:130-142 | the `forEach` loop builds the score dictionary and its key order |
| Webcam.ReduceTop | src/hooks/useWebcam.js:145-147 | the reduce loop returns the key the reference reduce keeps |
| Gemini.FullPromptShape | src/services/geminiService.js:74 | the request starts with the system prompt and contains the student's message |
| Gemini.SimplifyPromptQuotes | src/services/geminiService.js:144-156 | the simplification request starts with its fixed introduction and quotes both the last question and the last answer |
| Gemini.ParseState | src/services/geminiService.js:195-207 | a text names a known state exactly when its lower-cased form is that state's name |
| Gemini.BuildSystemPromptBase | src/services/geminiService.js:181-214 | the prompt starts with the base prompt, and equals it exactly when the state is null or empty |
| Gemini.BuildSystemPromptCases | src/services/geminiService.js:194-210 | each known state, in any letter case, appends its own instruction; any other text appends the generic instruction, which quotes the text |
| Gemini.ClassifyError | src/services/geminiService.js:216-234 | first match over the lower-cased message: API key, then quota, then safety, then network (including the error string), then CORS, else unexpected |
| Gemini.UnexpectedErrorQuotesMessage | src/services/geminiService.js:232-233 | an unclassified error with a message shows that message in its original case |
| Gemini.KelvinSignKeyError | src/services/geminiService.js:217-223 | the message "API \u212AEY" lowers to "api key" and is classified as an API-key error |
| Gemini.GeminiService.constructor | src/services/geminiService.js:19-39 | configured exactly when an API key exists; model index 0 and empty history |
| Gemini.GeminiService.ActiveModel | src/services/geminiService.js:41-63 | the model in use is the current index while it is in range, and the last model after the list runs out |
| Gemini.GeminiService.TryNextModel | src/services/geminiService.js:56-64 | the index goes up by one, and the answer is true exactly when it is still in range |
| Gemini.GeminiService.GenerateResponse | src/services/geminiService.js:66-114 | no model gives the configuration error; every model tried before the last one answered not-found; a reply appends exactly one history entry and is returned; an error without a message throws; any other error gives its error response; the index stays within the list length when it started inside it, and otherwise grows by at most one; when the last model tried answered, the index moved exactly as far as the active model did |
| Gemini.GeminiService.GetLastUserQuestion | src/services/geminiService.js:117-126 | null exactly on an empty history, otherwise the last entry's question and answer |
| Gemini.GeminiService.GenerateSimplifiedExplanation | src/services/geminiService.js:129-179 | null with no model or no history; on success the text is returned and an '[AUTO-CLARIFICATION]' entry with emotion 'confused' is appended; a failure gives null and leaves the history alone |
| Gemini.GeminiService.ClearHistory | src/services/geminiService.js:243-245 | the history is empty afterwards |
| Chat.FirstKeyword | src/hooks/useChatBox.js:153-157 | the first keyword, in the order newton, gravity, algebra, calculus, that the text contains, or none |
| Chat.MockResponseCases | src/hooks/useChatBox.js:150-163 | the canned text of the first contained keyword; with no keyword, the chosen default sentence followed by a suffix quoting the message |
| Chat.GenerateMockResponse | src/hooks/useChatBox.js:129-164 | the keyword loop with early return gives the mock response |
| Chat.SpacedPairwise | src/hooks/useChatBox.js:91-108 | delivered clarifications at non-zero times are, k deliveries apart, at least k·10000 ms apart |
| Chat.ChatState.constructor | src/hooks/useChatBox.js:5-8 | not typing, no chat box, untested connection, no clarification time |
| Chat.ChatState.SetChatBoxAttached | src/hooks/useChatBox.js:6 | only the chat-box reference changes |
| Chat.ChatState.TestApiConnection | src/hooks/useChatBox.js:12-27 | the stored connection flag and the answer are the outcome of the test |
| Chat.ChatState.AddAIResponse | src/hooks/useChatBox.js:68-72 | the text reaches the chat box exactly when one is attached |
| Chat.ChatState.HandleConfusedState | src/hooks/useChatBox.js:82-114 | while typing or within 10000 ms of a non-zero last clarification nothing happens; with no model or no history there is no clarification and the tutor is untouched; otherwise the simplified explanation of the last exchange is requested and, on success, recorded in the tutor's history; only a non-empty text with an attached chat box is shown with the banner and starts the cooldown; consecutive deliveries keep the cooldown apart |
| Chat.ChatState.DeliverClarification | src/hooks/useChatBox.js:105-110 | the bannered text is shown and the cooldown restarts at now |
| Chat.ChatState.BeginSendMessage | src/hooks/useChatBox.js:29-36 | the typing flag rises, and the call keeps the connection flag as it was when it started |
| Chat.ChatState.AskTutor | src/hooks/useChatBox.js:38-48 | an untested connection is tested first, and a failed test skips the model; otherwise the tutor's answer to the emotion-aware prompt is obtained |
| Chat.ChatState.CompleteSendMessage | src/hooks/useChatBox.js:38-66 | a returned answer is shown; a failure shows the connection message only when the flag captured at call time was false, and the mock response otherwise; typing ends on every path |
| Chat.ChatState.FallbackResponse | src/hooks/useChatBox.js:55-58 | the connection message when the captured flag is false, the mock response otherwise |
| Chat.ChatState.EndTyping | src/hooks/useChatBox.js:63-65 | the typing flag falls and nothing else changes |
| Chat.ChatState.HandleSendMessage | src/hooks/useChatBox.js:29-66 | the whole send: typing ends, the chat box and the cooldown are kept, an untested connection is stored, a failed first test gives the mock response and leaves the tutor untouched, a model reply is shown and recorded, and a failed reply leaves the history alone |
| Chat.ChatState.ClearConversation | src/hooks/useChatBox.js:74-79 | the tutor's history and the chat box are emptied |
| App.HandleEmotionTransition | src/App.jsx:195-205 | only a focused→confused transition triggers the confused-state handler; any other transition, or none, changes nothing; on focused→confused, nothing happens while the tutor is typing or within 10000 ms of the last clarification, no request is made without a model or a history, and otherwise the active model's simplified answer to the last exchange is returned and recorded; a clarification is shown, logged and restarts the cooldown exactly when it is non-empty and a chat box is attached, and otherwise nothing is shown |
| App.EmotionTag | src/App.jsx:211-215 | the tag is the state name of the vote, or null when there is none |
| App.EmotionTagInjective | src/App.jsx:211-215 | different votes give different tags |
| App.HandleMessageWithEmotion | src/App.jsx:210-215 | the message is sent tagged with exactly the weighted vote at send time; the chat box and cooldown are kept; a failed first test gives the mock response; whenever the tutor is asked, its prompt is built from that tag and a reply is shown and recorded |
| App.StatusOf | src/App.jsx:220-223 | fixed priority: loading, then models failed, then connecting while the connection is untested, then online or offline |
| App.IndicatorMatchesStatus | src/App.jsx:219-223 | after loading, the indicator is active exactly when the label is connecting or online; an offline label is never active |

## Left out

- face-api.js model loading and inference (src/services/faceDetectionService.js:24-53, 66-83): the outcome of loading and the face reading of a frame are parameters. An exception thrown by the detector has the same effect as an absent face.
- The video ready-state check is a boolean parameter of `DetectEmotion`.
- `startDetection`, `stopDetection`, `isReady` and the one-second capture timer are scheduling plumbing and are not modelled.
- The Gemini SDK (`generateContent`, `listModels`, `testConnection`, model initialisation with its generation config) is the `sdk` function parameter and the `success` parameter of `TestApiConnection`.
- `getConversationHistory` is a plain getter of the history field.
- React state and refs are class fields updated synchronously. A callback that another callback runs in the middle of its awaits is not modelled, except for the captured connection flag of `handleSendMessage`, which `BeginSendMessage` and `CompleteSendMessage` keep.
- The transition callback of the webcam hook is a returned `Option<Transition>`; `App.HandleEmotionTransition` plays the registered callback.
- All `console` output, including the "30s cooldown started" log that disagrees with the 10000 ms constant.
- `Math.random` in `generateMockResponse` is the `defaultIndex` parameter; `Date.now()` and `new Date()` are `now`.
- Text.LowerChar: lowers A–Z and the Kelvin sign only; other non-ASCII capitals become non-ASCII letters under `toLowerCase`, which the model keeps as they are, because they cannot complete or break a match of the ASCII keywords.
- Text.Lower: keeps the length; `toLowerCase` turns 'İ' (U+0130) into 'i' followed by a combining dot, two characters, which the model does not.
- Gemini.ClassifyError: matches on the model's lower-casing, which keeps 'İ' as one character where `toLowerCase` gives 'i' and a combining dot. No keyword ends in 'i', so no keyword match differs.
- IEEE floating point: NaN and Infinity for a zero jaw width (the model asks for a positive one), rounding error, and `toFixed` formatting.
- The UI components, the status indicator's colours and styled-components, the debug panel and the older App variant.
- Chat.ChatState.HandleConfusedState / Chat.SpacedPairwise: the 10 s spacing and the typing guard hold only for calls that do not overlap. The source checks the typing flag and the cooldown before awaiting the explanation, and records the time only after it, while frames keep arriving every second without waiting. Two focused→confused transitions within one model round-trip can therefore both deliver, and a send that starts during the await is not blocked; the model runs each call to completion.
- Chat.ChatState.HandleConfusedState: the exceptions that `generateSimplifiedExplanation` catches itself are modelled as a failed reply; a rejection escaping to the hook's own `catch` cannot happen in the model.
- Webcam.WebcamState.HandleFrameCapture: the source checks that a video element exists, not that it is ready; readiness is checked inside `detectEmotion`, and both are booleans here.
- Webcam.WebcamState.HandleEmotionDetected: manual reports are limited to the four learning states, while the source accepts any value; its only route in is `updateEmotion` of src/components/WebcamFeed.jsx, which no component in the repository calls.
- FaceDetection.FaceDetectionService.DetectEmotion: the landmarks are taken as a well-formed 68-point face with positive jaw width; a zero-width jaw, for which the source computes NaN or Infinity, is excluded, as under floating point above.
