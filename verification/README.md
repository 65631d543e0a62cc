# Heart: a verified model of the counselling chat's turn orchestrator

The application is a single-screen counselling chat. A visitor writes to
a language model that plays a counsellor. The screen
(`components/ChatInterface.tsx`) holds the conversation state:

- the message history;
- two busy flags, one for a turn and one for a story;
- the "progress", "status" and emotion of the visitor;
- a journey of turning points, with an unread mark;
- a few picker and modal flags.

Its handlers change that state one turn at a time. The model client
(`services/geminiService.ts`) builds the counsellor's instruction from
the time of day and a transcript of the history, calls the model, and
turns every failure into a value instead of an exception.

This project models both in Dafny.

- `types.dfy` (module `Types`) holds the records of `types.ts`:
  messages, journey points, the model's analysis result and the story.
  It also holds `Reply`, the outcome of one model call, as the client
  receives it. `Reply` is either a thrown error, or a response text
  together with what `JSON.parse` made of it.
- `strings.dfy` (module `Strings`) defines the JavaScript string
  operations the core relies on, on `seq<char>`:
  - `split` and `join` on one character;
  - `trim`, with ECMAScript's white-space set;
  - case-sensitive `includes`;
  - `length`, which counts UTF-16 code units.

  Each comes with the round trips and characterisations the rest of the
  model uses.
- `gemini.dfy` (module `Gemini`) models the deterministic part of the
  client:
  - the hour bucketing of the time-of-day phrase;
  - the transcript (`來訪者: ` / `諮商師: ` lines joined by newlines), the
    same for both calls;
  - the fallback of `sendUserMessage`, which never rejects;
  - the `null` result of `generateHealingStory`.
- `chat_text.dfy` (module `ChatText`) models the pure helpers of the
  screen:
  - `formatTextToParagraphs`;
  - the reading and typing delays;
  - the choice of the text a send carries;
  - the rate-limit classification of an error;
  - the texts composed by the emoji picker and the emotion cards.
- `chat_session.dfy` (module `ChatSession`) is the screen itself: a class
  `Conversation` whose fields are the component's state.
  - Each asynchronous handler becomes two methods, split at its `await`.
    The first step runs up to the call into the client. The second step
    (`Complete…` or `Fail…`) receives the call's outcome as a parameter.
  - What the suspended handler still holds is kept in the fields `turn`
    and `storyRequest`: the history it sent, the text it sent, and the
    value of `showJourneyMap` in the render it started from.
  - The invariant `Valid()` ties these fields to the busy flags. It also
    keeps the journey well formed: it starts at the neutral "踏上旅程"
    point, and no two neighbouring points share a description.
- `scenarios.dfy` (module `Scenarios`) drives whole sessions through the
  class and shows what its contracts let a caller conclude.

Points where the model follows the code closely:

- **The fold reads a stale map flag.** The reply handler is a closure
  captured when the turn began. It therefore reads `showJourneyMap` as it
  was in that render, not as it is when the reply arrives. The model
  records that value in the pending turn (`PendingTurn.mapOpen`).
- **The quota check is case-sensitive.** The error classification uses
  `includes`, so "Quota" is not a quota error. The model follows the
  code; `ChatText.CaseSensitiveExample` states it.
- **The service swallows rate limits.** `sendUserMessage` catches every
  error of the model call and returns its fallback. A rate-limited call
  therefore gets folded as an ordinary "連線中斷" turn; it does not reach
  the screen's quota apology (`Scenarios.RateLimitedCallFoldsFallback`).
  The apology is reached only when the second step of the send handler
  itself throws, with the stringified error as input (`FailSend`).
- **The three-message gate is on the button only.** The story button is
  disabled below three messages, but `handleRequestStory` has no such
  gate. `RequestStory` therefore starts whenever no story is loading. The
  automatic rule has its own gate of two messages (`AutoStory`).
- **Lengths are UTF-16 lengths.** The delays use `.length`, which counts
  UTF-16 code units, so an emoji outside the basic plane counts twice
  (`Strings.Utf16Length`).
- **The override is not trimmed.** The text sent is the override when it
  is non-empty, untrimmed; otherwise it is the trimmed input. The emoji
  picker relies on this to send the untrimmed input followed by the emoji.

## Model

| member | source | states |
|---|---|---|
| Strings.Split | components/ChatInterface.tsx:36 | `split('\n')` never yields an empty list, and no piece contains the separator |
| Strings.SplitWithout | components/ChatInterface.tsx:36 | a string without the separator splits into itself alone |
| Strings.JoinSplit | services/geminiService.ts:66 | `Join` of the pieces of a split, with the same separator, gives back the original string (its induction steps through the helper `JoinCons`) |
| Strings.SplitJoin | services/geminiService.ts:121 | splitting a `Join` of separator-free pieces gives back exactly those pieces |
| Strings.SplitConcat | components/ChatInterface.tsx:36 | splitting `a + sep + b` is splitting `a`, then splitting `b` (its induction steps through the one-step helpers `SplitAtSep` and `SplitAtChar`) |
| Strings.LeadingSpace | components/ChatInterface.tsx:222 | the leading run `trim` removes is all white space and stops at the first other character |
| Strings.TrailingSpace | components/ChatInterface.tsx:222 | the trailing run `trim` removes is all white space and stops at the last other character |
| Strings.Trim | components/ChatInterface.tsx:222 | the trimmed text is the piece of the string that starts right after its leading white space, everything after it is white space, and it neither starts nor ends with white space |
| Strings.TrimEmptyIff | components/ChatInterface.tsx:36 | a string trims to "" exactly when every character is ECMAScript white space |
| Strings.ContainsIff | components/ChatInterface.tsx:271 | `Contains(s, t)`, the model of `s.includes(t)`, holds exactly when `t` occurs at some offset of `s` |
| Strings.ContainsWithin | components/ChatInterface.tsx:269-271 | an occurrence survives surrounding the string with more text |
| Strings.Utf16Length | components/ChatInterface.tsx:244 | `.length` is between the number of characters and twice that |
| Strings.Utf16LengthOfChar | components/ChatInterface.tsx:244 | one character counts 2 code units from U+10000 on (a surrogate pair) and 1 below |
| Strings.Utf16LengthConcat | components/ChatInterface.tsx:244 | the length of a concatenation is the sum of the lengths, so `Utf16Length` is the per-character count of code units |
| Gemini.DayPartOf | services/geminiService.ts:24-26 | the hour picks late night below 6, morning in 6..11, afternoon in 12..17, evening from 18, each as an if-and-only-if |
| Gemini.TimeContext | services/geminiService.ts:24-26 | each of the four phrases is chosen exactly for its hour range: late night below 6, morning below 12, afternoon below 18, evening otherwise |
| Gemini.TimeContextBuckets | services/geminiService.ts:24-26 | two hours of 0..23 get the same phrase exactly when they fall in the same part of the day |
| Gemini.TranscriptLine | services/geminiService.ts:66 | a line is the speaker of the role, ": ", then the text; it has no newline when the text has none |
| Gemini.Transcript | services/geminiService.ts:121 | an empty history gives the empty transcript, a single message gives just its line |
| Gemini.TranscriptLines | services/geminiService.ts:121 | one line per history message, in order |
| Gemini.TranscriptEmptyIff | services/geminiService.ts:121 | the transcript is empty exactly when the history is |
| Gemini.TranscriptAppend | services/geminiService.ts:66 | a message added to the history adds one line after a newline |
| Gemini.TranscriptSplits | services/geminiService.ts:121 | with newline-free texts, splitting the transcript at newlines yields exactly one line per message |
| Gemini.SendUserMessage | services/geminiService.ts:80-95 | a thrown error, an empty response or a failed parse give the fixed fallback; otherwise the parsed result |
| Gemini.FallbackIsQuiet | services/geminiService.ts:89-94 | the fallback has progress within 0..100, status "連線中斷", neutral emotion, no turning point and no picker or story request |
| Gemini.GenerateHealingStory | services/geminiService.ts:133-139 | the story is present exactly when the call responded with a non-empty text that parsed, and then it is the parsed story |
| ChatText.NonBlank | components/ChatInterface.tsx:36 | keeps exactly the lines that are not blank after trimming |
| ChatText.Paragraphs | components/ChatInterface.tsx:35-37 | no paragraph contains a newline or is blank |
| ChatText.ParagraphsOfLine | components/ChatInterface.tsx:35-37 | a newline-free text is one paragraph, or none when blank |
| ChatText.ParagraphsConcat | components/ChatInterface.tsx:35-37 | a newline separates the paragraphs before it from those after it, order kept |
| ChatText.ParagraphsOfJoin | components/ChatInterface.tsx:35-37 | newline-joined, newline-free, non-blank paragraphs are recovered exactly, the empty list included |
| ChatText.ReadingDelay | components/ChatInterface.tsx:243-244 | the reading delay lies in 800..2500 and reaches the cap exactly from 57 code units on |
| ChatText.TypingDelay | components/ChatInterface.tsx:256-260 | the typing delay lies in 1000..4000 and reaches the cap exactly from 150 code units on |
| ChatText.DelaysMonotone | components/ChatInterface.tsx:244 | a longer text never gets a shorter reading or typing delay |
| ChatText.RevealTime | components/ChatInterface.tsx:250-262 | the reply appears after both the call and the reading delay, then the typing delay; at least 1800 ms, at most the later of 2500 ms and the call's latency, plus 4000 ms |
| ChatText.TextToSend | components/ChatInterface.tsx:222 | a non-empty override is sent untrimmed; otherwise the trimmed input |
| ChatText.TextToSendEmptyIff | components/ChatInterface.tsx:222-223 | without an override, the send is refused exactly when the input is all white space |
| ChatText.EmojiText | components/ChatInterface.tsx:291 | with typed text: the untrimmed text, a space, the emoji; without: a text starting with the emoji and containing the feeling |
| ChatText.EmotionCardText | components/ChatInterface.tsx:299 | the card text contains the card's label and ends with its sentence |
| ChatText.ErrorReplyText | components/ChatInterface.tsx:268-273 | by `IsQuotaError`: the quota apology exactly when the error contains "429", "quota" or "RESOURCE_EXHAUSTED"; the generic apology exactly otherwise |
| ChatText.QuotaErrorIff | components/ChatInterface.tsx:271 | `IsQuotaError` holds exactly when "429", "quota" or "RESOURCE_EXHAUSTED" occurs at some offset of the error string |
| ChatText.QuotaSurvivesWrapping | components/ChatInterface.tsx:269-271 | a rate-limit marker is still recognised inside a larger stringified error |
| ChatText.QuotaReplyExamples | components/ChatInterface.tsx:271-272 | `{"status":"RESOURCE_EXHAUSTED"}` and `{"code":429}` get the quota apology |
| ChatText.GenericReplyExample | components/ChatInterface.tsx:268 | "network down" gets the generic apology |
| ChatText.CaseSensitiveExample | components/ChatInterface.tsx:271 | "quota" gets the quota apology but "Quota" the generic one: the match is case-sensitive |
| ChatText.NoQuotaMarker | components/ChatInterface.tsx:271 | a string without '4', 'q' and 'R' is never a quota error |
| ChatSession.NextJourney | components/ChatInterface.tsx:185-206 | one point, tagged with the emotion, is appended exactly when `AddsTurningPoint` holds (the turning point is present, non-empty and differs from the last description); otherwise the journey is unchanged; neighbours stay distinct |
| ChatSession.NextJourneyIdempotent | components/ChatInterface.tsx:187-190 | the same turning point reported twice in a row is recorded once |
| ChatSession.NextJourneyKeepsValid | components/ChatInterface.tsx:122 | recording a turning point keeps the journey starting at the neutral start point, with distinct neighbours |
| ChatSession.SendStartsTurn | components/ChatInterface.tsx:234-241 | a send whose history is everything before its user message satisfies the pending-turn invariant |
| ChatSession.AppendKeepsTurn | components/ChatInterface.tsx:177 | appending a message keeps the pending turn's history a prefix, with its user message after it |
| ChatSession.Conversation.Mount | components/ChatInterface.tsx:40-62 | the initial state, then the init effect's opening: loading with the connecting status, the journey seeded with one neutral "踏上旅程" point, and the probe in flight with an empty history; the text the turn sends is the opening probe |
| ChatSession.Conversation.HandleAIResponse | components/ChatInterface.tsx:169-218 | exactly one model message carrying text, insight and practical step is appended; progress, status and emotion are overwritten; the journey advances by `NextJourney`; unread is raised only on an actual append while the map was closed; the picker and story flags are raised on request |
| ChatSession.Conversation.CompleteOpening | components/ChatInterface.tsx:126-133 | the opening reply is folded with no user message and the map flag of the mount render; loading ends |
| ChatSession.Conversation.FailOpening | components/ChatInterface.tsx:128-133 | a thrown opening call only ends loading |
| ChatSession.Conversation.StartTurn | components/ChatInterface.tsx:225-245 | exactly one user message is appended, the input is cleared, both pickers and the disclaimer close, loading starts with the reading status, and the turn is in flight with the history from before the append |
| ChatSession.Conversation.BeginSend | components/ChatInterface.tsx:221-250 | refused, changing nothing, exactly while loading or when the text is empty; otherwise exactly one user message with that text is appended, the input is cleared, both pickers and the disclaimer close, loading starts with the reading status, and the turn sends that text with the history from before the append |
| ChatSession.Conversation.CompleteSend | components/ChatInterface.tsx:253-264 | the typing delay of the reply, then the fold with the map flag captured at send time; loading ends with the default status |
| ChatSession.Conversation.FailSend | components/ChatInterface.tsx:265-285 | exactly one error message, quota or generic by the classification; progress, status, emotion and journey untouched; loading ends |
| ChatSession.Conversation.EmojiClick | components/ChatInterface.tsx:288-295 | accepted exactly when not loading; refused, nothing changes but the emoji picker; accepted, the composed emoji text is sent as by `BeginSend` (appended, input cleared, disclaimer and emotion picker closed, reading status, turn in flight); the emoji picker is closed either way |
| ChatSession.Conversation.EmotionSelect | components/ChatInterface.tsx:297-300 | accepted exactly when not loading; refused, nothing changes; accepted, the composed card text is sent as by `BeginSend` (appended, input cleared, disclaimer and both pickers closed, reading status, turn in flight) |
| ChatSession.Conversation.RequestStory | components/ChatInterface.tsx:138-146 | ignored exactly while a story is loading; otherwise the story is requested with the current history, with no minimum-length gate |
| ChatSession.Conversation.CompleteStory | components/ChatInterface.tsx:146-165 | a story opens the story view and appends nothing; null appends exactly one error message; the story is no longer loading |
| ChatSession.Conversation.FailStory | components/ChatInterface.tsx:162-166 | a thrown story call appends nothing and ends story loading |
| ChatSession.Conversation.AutoStory | components/ChatInterface.tsx:109-114 | fires exactly when a story was suggested, none is loading and there are at least two messages; then requests it and clears the trigger; otherwise nothing changes |
| ChatSession.Conversation.ToggleJourneyMap | components/ChatInterface.tsx:322-329 | the map flips; unread is cleared exactly when the map opens |
| ChatSession.Conversation.SetInput | components/ChatInterface.tsx:680 | typing replaces the input text |
| ChatSession.Conversation.ToggleEmojiPicker | components/ChatInterface.tsx:667-670 | the emoji picker flips |
| ChatSession.Conversation.DismissEmotionSelector | components/ChatInterface.tsx:393 | the emotion picker closes |
| ChatSession.Conversation.CloseStoryModal | components/ChatInterface.tsx:309-311 | the story view hides |
| ChatSession.Conversation.ClearClosedStory | components/ChatInterface.tsx:312-314 | the closed story is dropped |

## Left out

- The model call and `JSON.parse` are foreign code. Their outcome is the
  `Reply` parameter of `SendUserMessage` and `GenerateHealingStory`, and
  the session methods take the client's result directly. The parsed JSON
  is taken to be well typed. A reply missing `text`, or carrying an
  emotion outside the eight, is not modelled.
- `AnalysisResult.progress` is an integer in the model. JSON may carry a
  fractional number there; the screen only copies it into
  `currentProgress`, so nothing in the model depends on the difference.
- The stringification of a thrown error (`JSON.stringify` or `String`)
  is not modelled: `FailSend` takes the resulting string.
- Real time is not modelled: `setTimeout`, the `Promise.all` wait, and
  `Date.now()`. Timestamps are a `now` parameter. The delays are
  computed, not waited for; `RevealTime` states their combination.
- The transient "正在思考回應..." status between the reading and typing
  delays is not modelled. `CompleteSend` goes from the reading status
  straight to the default one.
- The counsellor's instruction is not modelled beyond the time-of-day
  phrase and the transcript: the persona text, the prompt wording and the
  random name list.
- Audio feedback, scrolling, focus and `isMobile`, and the rendering
  (including the bold-text split in `renderFormattedText`) are
  presentation only. services/audioService.ts, components/HeartVisualizer.tsx,
  App.tsx and constants.ts are not part of this model.
- React scheduling is not modelled: each handler's state updates happen
  together, at the step that makes them. A second send issued before the
  re-render that raises `isLoading` is not modelled.
- The story button's `disabled` condition (fewer than three messages) is
  not modelled. It gates the click in the markup, not the handler.
