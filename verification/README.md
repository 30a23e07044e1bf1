# Vision Assist core, modelled in Dafny

Vision Assist is a browser application for visually impaired users. It points a
camera at the surroundings, runs a pretrained object detector, speaks what it
sees, answers a few chat phrases and records a small profile by voice. Most of
the repository is React markup around a TensorFlow detector and the browser's
speech services. This project models the sequential logic inside its three
components:

- **Camera view** (`src/components/ImageRecognition.tsx`): the sentence spoken
  for one detector result (module `Narration`), and the component state
  (module `Camera`, class `ImageRecognition`). The state covers the
  `isAnalyzing` gate that drops requests while the detector runs, the speech
  queue that keeps only the newest sentence, the mute button, the voice
  commands "detect", "describe" and "live", and one tick of the live loop.
  `detectObjects` awaits the detector, so it is two steps:
  `RequestDetection` passes the gate and sets `isAnalyzing`;
  `CompleteDetection` takes the detector's outcome, narrates it and clears
  the flag. Any other event can arrive between the two.
- **Chat view** (`src/components/Chatbot.tsx`): the first-match keyword
  responder `processMessage` (module `Chatbot`) and the message log kept by
  the voice handler (class `ChatSession`).
- **Profile questionnaire** (`src/components/Profile.tsx`): the step counter,
  the one field each answer writes, the prompt of each step and the
  completion callback (module `ProfileSetup`, class `ProfileForm`).

Module `Text` holds the string operations the components use: ASCII
`toLowerCase`, `includes`, `join` and the decimal rendering of an integer.
Three of them have a separate reference definition and a lemma tying the
two together: `Contains` against an index-based occurrence, `Join` against a
join built from the last part backwards, and `IntToString` against a digit
reader. `ToLower` is specified character by character in its own contract.

The responder's first branch tests "hello" and then "hi", before any phrase of a later branch.
"something" contains "hi", so any message containing "something" is greeted. In particular the phrase "can you
do something intresting" never reaches the fourth branch: only "what else
can you do" does (`Chatbot.SomethingInterestingIsGreeted`). The model keeps
this behaviour as written.

Outside inputs are parameters. These are: the detector's outcome
(`DetectorOutcome`), whether a video element exists, the video width, the
outcome of model loading, the transcripts, and the clock reading used by
the time reply. Speech output is a sequence of queued utterances.

## Model

| member | source | states |
|---|---|---|
| `Text.ToLower` | src/components/Chatbot.tsx:26 | Lower-casing keeps the length and lower-cases each ASCII letter in place. |
| `Text.ToLowerIdempotent` | src/components/ImageRecognition.tsx:137 | Lower-casing twice gives the same text as lower-casing once. |
| `Text.SameUpToCaseLowerEqual` | src/components/Chatbot.tsx:26 | Texts that differ only in the case of ASCII letters have the same lower-case form. |
| `Text.Contains` | src/components/Chatbot.tsx:29-37 | The empty text is contained in every text, and a contained text is never longer than the text containing it. |
| `Text.ContainsIffOccurs` | src/components/Chatbot.tsx:29 | The recursive `includes` holds exactly when the needle occurs at some index of the text. |
| `Text.ContainsTransitive` | src/components/Chatbot.tsx:29-35 | A text containing b contains everything b contains. This is how "hi" inside "something" reaches the greeting test. |
| `Text.Join` | src/components/ImageRecognition.tsx:90 | No parts join to the empty text. Otherwise the result starts with the first part, ends with the last, and its length is the parts' lengths plus one separator between each pair of neighbours. |
| `Text.JoinMatchesReference` | src/components/ImageRecognition.tsx:90 | `join` equals the reference join that appends the last part after the joined rest, for every list of parts. |
| `Text.JoinAppend` | src/components/ImageRecognition.tsx:88-90 | `join` builds left to right: one more part adds the separator and then the part at the end. |
| `Text.JoinContainsPart` | src/components/ImageRecognition.tsx:88-90 | Every part appears in the joined text. |
| `Text.NatToString` | src/components/ImageRecognition.tsx:89 | The rendering of a number is non-empty decimal digits with no leading zero. |
| `Text.IntToString` | src/components/ImageRecognition.tsx:89 | The rendering of an integer is never empty, and starts with a minus sign exactly when the integer is negative. |
| `Text.IntToStringRoundTrip` | src/components/ImageRecognition.tsx:89 | Reading the rendered text of an integer back gives the integer, with a minus sign for negatives. |
| `Narration.Round` | src/components/ImageRecognition.tsx:89 | `Math.round` gives the integer r with r - 1/2 <= x < r + 1/2, so halves round up. |
| `Narration.Percent` | src/components/ImageRecognition.tsx:89 | A score in [0, 1] becomes a percentage between 0 and 100. |
| `Narration.ConfidenceClause` | src/components/ImageRecognition.tsx:89 | The clause starts with the class and " with ", ends with "% confidence", and the rendered percentage fills the gap between them. |
| `Narration.QuickDescription` | src/components/ImageRecognition.tsx:88-90 | The quick sentence starts with "I see " followed by the first prediction's clause. For one prediction it is exactly "I see " and that clause. |
| `Narration.PositionOf` | src/components/ImageRecognition.tsx:95-100 | For a non-negative width W, the label is center exactly when W/3 <= x <= 2W/3. |
| `Narration.SpatialClause` | src/components/ImageRecognition.tsx:101 | The clause starts with the class and a space, ends with the position phrase of the box's x, and has nothing else between them. |
| `Narration.DetailedDescription` | src/components/ImageRecognition.tsx:93-103 | The detailed sentence starts with "Detailed view: " followed by the first prediction's clause. For one prediction it is exactly the lead-in and that clause. |
| `Narration.ConfidenceClauses` | src/components/ImageRecognition.tsx:88-90 | There is one "<class> with <n>% confidence" clause per prediction, in the detector's order. |
| `Narration.SpatialClauses` | src/components/ImageRecognition.tsx:93-102 | There is one "<class> <position>" clause per prediction, in the detector's order. |
| `Narration.Narrate` | src/components/ImageRecognition.tsx:85-106 | The sentence is never empty. It is the "No objects detected in view" phrase exactly when there are no predictions. |
| `Narration.NarrateEmpty` | src/components/ImageRecognition.tsx:85-86 | An empty result yields "No objects detected in view" in both quick and detailed mode. |
| `Narration.NarrateQuick` | src/components/ImageRecognition.tsx:88-105 | Quick mode yields "I see " followed by the confidence clauses joined by ", ". Each clause occurs in the sentence. |
| `Narration.NarrateDetailed` | src/components/ImageRecognition.tsx:93-103 | Detailed mode yields "Detailed view: " followed by the position clauses joined by ", ". Each clause occurs in the sentence. |
| `Narration.NarrateSingle` | src/components/ImageRecognition.tsx:88-105 | With a single prediction, each mode's sentence is its lead-in followed by that prediction's one clause, with no separator. |
| `Narration.PositionThresholds` | src/components/ImageRecognition.tsx:95-100 | For width W >= 0 the rule gives exactly one label: left iff x < W/3, right iff x > 2W/3, center otherwise. x = W/3 and x = 2W/3 are both center. |
| `Narration.PositionMonotone` | src/components/ImageRecognition.tsx:95-100 | The label is monotone in x: moving a box right never moves its label left. |
| `Narration.DetailedIgnoresScoreAndSize` | src/components/ImageRecognition.tsx:93-103 | The detailed sentence depends only on each prediction's class and box x, not on score, y, width or height. |
| `Narration.PersonOnTheLeft` | src/components/ImageRecognition.tsx:93-103 | A person whose box starts at x = 10 in a 300-pixel frame is narrated "Detailed view: person on the left", whatever its score and box size. |
| `Narration.PersonWithConfidence` | src/components/ImageRecognition.tsx:88-105 | A person with score 0.92 is narrated "I see person with 92% confidence" in quick mode, wherever its box is. |
| `Camera.VoiceCommand` | src/components/ImageRecognition.tsx:137-143 | On the lower-cased transcript, "detect" picks quick detection. Otherwise "describe" picks detailed detection. Otherwise "live" toggles live mode. At most one action fires. |
| `Camera.NoKeywordNoAction` | src/components/ImageRecognition.tsx:137-143 | A transcript with none of the three keywords does nothing. |
| `Camera.VoiceCommandIgnoresCase` | src/components/ImageRecognition.tsx:137 | Letter case never changes the command. |
| `Camera.DetectWinsOverDescribe` | src/components/ImageRecognition.tsx:138-139 | "describe what you detected" runs quick detection, because "detect" is checked first. |
| `Camera.ImageRecognition.constructor` | src/components/ImageRecognition.tsx:16-20 | Initially there is no model, no run, no mute, no live mode, no detections and nothing queued. |
| `Camera.ImageRecognition.Speak` | src/components/ImageRecognition.tsx:37-44 | When muted the queue is unchanged. Otherwise pending speech is cancelled and the queue is exactly the new sentence. |
| `Camera.ImageRecognition.FinishModelLoad` | src/components/ImageRecognition.tsx:22-35 | A successful load marks the model ready and announces it. A failed load announces the failure and leaves `modelLoaded` as it was. |
| `Camera.ImageRecognition.RequestDetection` | src/components/ImageRecognition.tsx:76-79 | Without video, without a model or while a run is in flight, nothing changes. Otherwise `isAnalyzing` is set and a run of the requested mode is pending. Nothing is spoken either way. |
| `Camera.ImageRecognition.CompleteDetection` | src/components/ImageRecognition.tsx:80-113 | Success stores the predictions and queues their narration. Failure keeps the old detections and queues exactly the error sentence. Both paths clear `isAnalyzing`. |
| `Camera.ImageRecognition.DetectObjects` | src/components/ImageRecognition.tsx:76-114 | A call that fails the gate changes nothing. A call that passes it ends with `isAnalyzing` false, whether the detector succeeded or threw, having spoken the narration or the error sentence. |
| `Camera.ImageRecognition.OnVoiceResult` | src/components/ImageRecognition.tsx:136-144 | The handler fires the one action `VoiceCommand` picks. "detect" and "describe" only start a run through the gate and speak nothing. "live" flips `isLive` and says "Stopping…" if live mode was on before, "Starting…" if it was off. |
| `Camera.ImageRecognition.LiveTick` | src/components/ImageRecognition.tsx:119-123 | While live, a refresh requests a quick detection through the gate. When not live it changes nothing. |
| `Camera.ImageRecognition.ToggleMute` | src/components/ImageRecognition.tsx:169 | The mute button flips `isMuted` and touches nothing else. |
| `Camera.SpeakTwice` | src/components/ImageRecognition.tsx:37-44 | On any unmuted view, whatever was queued before, speaking A and then B leaves only B to be heard. |
| `Camera.StopLiveDuringRun` | src/components/ImageRecognition.tsx:116-131 | A request during a live run is dropped. Switching live mode off mid-run still lets that run finish and be narrated. The next tick starts nothing. |
| `Chatbot.Classify` | src/components/Chatbot.tsx:29-41 | Exactly one branch fires, first match wins, in the order greeting, help, time, "interesting", weather, then the fallback. |
| `Chatbot.Reply` | src/components/Chatbot.tsx:27-43 | Every branch's reply is non-empty. |
| `Chatbot.ProcessMessage` | src/components/Chatbot.tsx:25-44 | The reply is never empty. |
| `Chatbot.ProcessMessageIgnoresCase` | src/components/Chatbot.tsx:26 | Messages that differ only in ASCII letter case get the same reply. |
| `Chatbot.ProcessMessageOfLowerCase` | src/components/Chatbot.tsx:26 | Lower-casing a message first does not change its reply. |
| `Chatbot.HiIsGreeted` | src/components/Chatbot.tsx:29-30 | Any message containing "hi" or "hello", in any case, gets the greeting. |
| `Chatbot.SomethingInterestingIsGreeted` | src/components/Chatbot.tsx:29-35 | A message containing "can you do something intresting" always gets the greeting and never the fourth branch. |
| `Chatbot.InterestingPhraseIsLowerCase` | src/components/Chatbot.tsx:35 | That phrase is its own lower-case form. |
| `Chatbot.InterestingPhraseIsGreeted` | src/components/Chatbot.tsx:29-36 | Any message whose lower-case form is exactly that phrase gets the greeting. |
| `Chatbot.ExactInterestingPhraseIsGreeted` | src/components/Chatbot.tsx:29-36 | The phrase itself, as written in the fourth branch, gets the greeting. |
| `Chatbot.TimeReply` | src/components/Chatbot.tsx:33-34 | The time branch replies "The current time is " followed by the supplied clock reading. |
| `Chatbot.NoKeywordFallback` | src/components/Chatbot.tsx:39-40 | A message with none of the keywords or phrases gets the camera-suggestion reply. |
| `Chatbot.ChatSession.constructor` | src/components/Chatbot.tsx:10-11 | The log starts empty and the view is not listening. |
| `Chatbot.ChatSession.StartListening` | src/components/Chatbot.tsx:46-47 | Starting voice input sets `isListening`. |
| `Chatbot.ChatSession.OnResult` | src/components/Chatbot.tsx:50-61 | A result appends exactly the transcript (user), then `processMessage` of it (bot), leaving earlier messages as they were. The reply is appended to the speech queue without cancelling. The log stays a list of user/reply pairs. |
| `Chatbot.ChatSession.OnEnd` | src/components/Chatbot.tsx:64-66 | The end of the recognition session clears `isListening`. |
| `ProfileSetup.Prompt` | src/components/Profile.tsx:44-51 | For steps 1 to 3 the prompt is one of the three questions, `questions[step-1]`. |
| `ProfileSetup.Answer` | src/components/Profile.tsx:27-37 | Step 1 sets only the name, step 2 only the age, step 3 only the emergency contact. Any other step changes no field. |
| `ProfileSetup.AnswerExtends` | src/components/Profile.tsx:27-38 | An answer at step n+1 after n answers gives the profile built from the n+1 answers in order. |
| `ProfileSetup.ThreeAnswersFillProfile` | src/components/Profile.tsx:27-38 | After three or more answers, the profile holds the first three in order, and a further answer changes nothing. |
| `ProfileSetup.ProfileForm.constructor` | src/components/Profile.tsx:11-16 | Initially the step is 1, every field is empty and the first question is spoken. |
| `ProfileSetup.ProfileForm.Announce` | src/components/Profile.tsx:43-56 | For steps up to 3 the step's question is spoken. Past step 3, `onComplete` receives the current profile and the completion message is spoken. |
| `ProfileSetup.ProfileForm.OnResult` | src/components/Profile.tsx:25-38 | Each result advances the step by exactly 1 and writes the current step's field. The invariant is kept: step = answers + 1, the profile is the first three answers, and every completion saw that profile. |
| `ProfileSetup.ThreeAnswers` | src/components/Profile.tsx:27-55 | From the initial state, three answers give name, age and contact in order. The three questions are asked, and `onComplete` receives the filled profile once. |

## Left out

- Model loading and inference (`tf.ready`, `cocossd.load`, `model.detect`) are library calls. Their results are parameters: a load flag and a `DetectorOutcome`.
- Canvas drawing (`drawDetections`, including its `toFixed` label text) renders to a 2D context and is not modelled.
- Floating point: scores, boxes and widths are exact reals, and `Math.round(score*100)` is `(score*100 + 1/2).Floor`. IEEE rounding is not modelled.
- Browser scheduling: the `requestAnimationFrame` loop is one `LiveTick` per refresh, and the chat's 500 ms `setTimeout` is taken as immediate.
- React closures and batched updates: state is read as the code reads sequentially. The captured `isLive`, `isMuted`, `isAnalyzing` and `step` are the current values. What this hides in the live loop (src/components/ImageRecognition.tsx:119-131): the next frame is requested after the detector is awaited, possibly after the effect's cleanup has run, so a frame can survive that nothing cancels. That frame calls the `detectObjects` of an earlier render, which still sees `isAnalyzing` false and `isLive` true. Live mode can therefore run two detector calls at once and keep running after "live" is switched off. `Camera.StopLiveDuringRun` and the `isAnalyzing` gate hold only under the sequential reading.
- ToLower: lower-cases ASCII letters only. JavaScript's `toLowerCase` also folds non-ASCII letters.
- Speech services: recognition sessions are transcripts passed in. Synthesis is a queue of strings. The browser has one speech queue, but each view keeps its own, so cancellation in the camera view does not reach sentences queued by the other views.
- ImageRecognition: a video that disappears while the detector runs (the non-null assertion on the width) is not modelled. The width is a parameter of `CompleteDetection`.
- Chatbot: the scroll-to-bottom effect is UI only.
- src/App.tsx (tab routing, `localStorage` and JSON persistence of the profile) and src/main.tsx (backend setup, mounting) are not part of this model.
- JSX markup and styling are not modelled.
