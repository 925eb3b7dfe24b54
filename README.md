# ScamShield core logic in Dafny

ScamShield is a React Native app that trains people to recognise phone, text,
email and website scams. Each scenario is a simulated call, text
conversation, inbox or payment page. In test mode the app records what the
user did in each one, scores every scenario and averages the scores. This
project models the app's logic and proves properties about it:

- the phone-call, mail and text-message state machines;
- test-mode scoring and session bookkeeping;
- the registry of scam personas;
- the pure helpers in the payment form; the scam-call screen and the AI
  service.

The modules, one per source file:

| file | module | models |
|---|---|---|
| `wrappers.dfy` | `Wrappers` | `Option`, standing for `null`/`undefined` |
| `text.dfy` | `JsText` | the JavaScript string operations the sources use |
| `phone_machine.dfy` | `PhoneMachine` | `src/machines/phoneMachine.ts` as a transition function |
| `ai_service.dfy` | `AiService` | the history filter and fallback of `generateText`, URI and file-name handling in `transcribeAudio`, the `initAudioMode` flag |
| `scam_scenarios.dfy` | `ScamScenarios` | `src/config/scamScenarios.ts` |
| `test_mode.dfy` | `TestMode` | `src/context/TestModeContext.tsx` |
| `mail_machine.dfy` | `MailMachine` | `src/machines/mailMachine.ts` |
| `message_machine.dfy` | `MessageMachine` | `src/machines/messageMachine.ts` |
| `payment_screen.dfy` | `CanadaPostPayment` | card validation, expiry auto-slash and metrics in `src/screens/CanadaPostPaymentScreen.tsx` |
| `scam_call_screen.dfy` | `ScamCallScreen` | `formatTime`, caller display, outcome recording and "Continue Test" in `src/screens/ScamCallScreen.tsx` |

How the model is shaped:

- **The xstate machines** are pure functions `Step(config, event)`.
  - An event is first offered to the deepest active state, then to its
    parents, then to the machine's own handlers.
  - An event no state handles is ignored.
  - `Run` folds `Step` over a sequence of events.
  - Each machine has an invariant `Inv`, proved to hold in every reachable
    configuration.
  - The phone machine's timer actor becomes a `Tick` event. Its AI actor
    becomes two events: `AiDone(text, audio)` and `AiError`.
- **Stateful objects** are classes with `modifies` clauses:
  - the test-mode provider, which holds its `state` and `currentMetrics`;
  - the scam-call screen, which holds its machine and the
    `hasRecordedOutcome` flag;
  - the AI service's audio-mode flag.
- **Imperative code** stays imperative:
  - `calculateScore`, which mutates `score` and `feedback`;
  - `selectScamsForSession`, which fills a list with `push` and `splice` in
    loops;
  - the clinic auto-reply builder in the message machine.

  `calculateScore` and the clinic builder are methods proved equal to a
  specification function, and the lemmas are stated about that function.
  `selectScamsForSession` states its properties directly on the list the
  loops build.
- **JavaScript semantics**, spelled out:
  - `if (metrics.k)` is true when the key is present and the value is
    neither `false` nor 0;
  - `{...a, ...b}` is map union, with the keys of `b` winning;
  - `.length` counts UTF-16 code units, so a character above U+FFFF counts
    as two;
  - `trim()` and `\s` use the ECMAScript white-space set;
  - `Math.round` rounds halves up;
  - `Math.floor` of a quotient is written out.
- **Inputs the code cannot control** are parameters:
  - random choices;
  - clock readings;
  - whether a platform call succeeds.
- **Code over calling screen:** `src/screens/ScamCallScreen.tsx` uses states
  and fields that `src/machines/phoneMachine.ts` does not define:
  - the states `speakingOpening`, `recording` and `transcribing`;
  - the context fields `scenario`, `scamOutcome` and `toolCalls`;
  - the event `SET_SCENARIO`.

  The model follows `phoneMachine.ts`. The call outcome is therefore a
  parameter of the screen's model. The machine never stores a scenario, so the
  screen always shows its default caller display. `Display` covers both cases.

## Model

| member | source | states |
|---|---|---|
| JsText.TrimEmptyIff | src/services/aiService.ts:41 | `trim()` gives the empty string exactly when every character is ECMAScript white space |
| JsText.RemoveWhitespaceInsert | src/screens/CanadaPostPaymentScreen.tsx:37 | inserting a white-space character anywhere does not change `replace(/\s/g, '')` |
| JsText.Utf16LengthAppend | src/screens/CanadaPostPaymentScreen.tsx:33 | the UTF-16 length of a concatenation is the sum of the lengths |
| JsText.Utf16LengthIsLengthIff | src/screens/CanadaPostPaymentScreen.tsx:33 | the UTF-16 length equals the character count exactly when no character lies above U+FFFF |
| JsText.DecimalRoundTrip | src/screens/ScamCallScreen.tsx:320 | `String(n)` read back as a decimal number gives `n` |
| JsText.ZeroPadValue | src/screens/ScamCallScreen.tsx:320 | `padStart(len, '0')` keeps a digit string's value |
| PhoneMachine.RequestHistory | src/machines/phoneMachine.ts:37-41 | the request history is the conversation followed by one more user message carrying the last message's text |
| PhoneMachine.StepKeepsInv | src/machines/phoneMachine.ts:71-169 | every transition preserves the invariant. In `incoming` the context is the initial one. In `processing` the last turn is the user's and the agent is thinking. In `speaking` the last turn is the assistant's. Audio is pending exactly in `speaking`. |
| PhoneMachine.ReachableInv | src/machines/phoneMachine.ts:61-169 | the invariant holds in every configuration reachable from the initial one |
| PhoneMachine.RequestRepeatsUserTurn | src/machines/phoneMachine.ts:40 | in every reachable `processing` state, the request sends the last user turn twice |
| PhoneMachine.IncomingTransitions | src/machines/phoneMachine.ts:71-76 | ACCEPT goes to `active.main`, DECLINE to `ended`; every other event is ignored and the context is unchanged |
| PhoneMachine.UserSpeakOnlyInMain | src/machines/phoneMachine.ts:84-96 | USER_SPEAK in `main` appends exactly one user turn, sets the agent to thinking and enters `processing`; in the other substates it is ignored |
| PhoneMachine.AiDoneInProcessing | src/machines/phoneMachine.ts:115-125 | a completion appends one assistant turn, stores the audio, sets the agent to speaking and enters `speaking` |
| PhoneMachine.AiEventsOnlyInProcessing | src/machines/phoneMachine.ts:108-131 | completion and error events change nothing outside `processing` |
| PhoneMachine.AudioFinishedInSpeaking | src/machines/phoneMachine.ts:132-139 | AUDIO_FINISHED returns to `main`, sets the agent to listening and clears the pending audio |
| PhoneMachine.PressKeyOnlyInKeypad | src/machines/phoneMachine.ts:98-107 | PRESS_KEY appends the key in `keypad` and is ignored everywhere else |
| PhoneMachine.BackgroundEvents | src/machines/phoneMachine.ts:141-152 | in every active substate TICK adds one to the duration and the two toggles negate their flag, with nothing else changed; in `incoming` and `ended` all three are ignored |
| PhoneMachine.EndCallTransitions | src/machines/phoneMachine.ts:142 | END_CALL from any active substate goes to `ended` with the context untouched; elsewhere it is ignored |
| PhoneMachine.RestartTransitions | src/machines/phoneMachine.ts:154-169 | RESTART is accepted only in `ended` and restores exactly the initial configuration |
| PhoneMachine.BackgroundRun | src/machines/phoneMachine.ts:141-152 | background events keep the substate, conversation, keypad, agent state and audio, and add their TICK count to the duration |
| PhoneMachine.FullTurn | src/machines/phoneMachine.ts:84-125 | USER_SPEAK, any background events and a completion grow the conversation by exactly the user's turn followed by the assistant's |
| PhoneMachine.FailedTurn | src/machines/phoneMachine.ts:84-129 | after an AI error the machine is back in `main` and idle, and the conversation is exactly one user turn longer |
| PhoneMachine.RunAppend | src/machines/phoneMachine.ts:71-169 | running two event sequences one after the other is running their concatenation |
| PhoneMachine.ConversationAppendOnly | src/machines/phoneMachine.ts:61-169 | without RESTART the conversation only grows at its end |
| PhoneMachine.DurationBoundedByTicks | src/machines/phoneMachine.ts:143-145 | the duration grows by no more than the number of TICK events |
| PhoneMachine.EndedIsStable | src/machines/phoneMachine.ts:154-169 | in `ended` every event except RESTART is ignored |
| PhoneMachine.RestartIdempotent | src/machines/phoneMachine.ts:154-169 | every ended call restarts to the same initial configuration, and restarting again changes nothing |
| AiService.KeptIffTrimmed | src/services/aiService.ts:41 | a message is kept exactly when its content is non-empty and non-blank after `trim()` |
| AiService.FilterHistory | src/services/aiService.ts:41 | the filtered history is no longer than the input and holds only kept messages |
| AiService.FilterAppend | src/services/aiService.ts:41 | the filter distributes over concatenation, so the original order is kept |
| AiService.FilterMembers | src/services/aiService.ts:41 | a message is in the filtered history exactly when it is in the input and is kept |
| AiService.FilterEmptyIff | src/services/aiService.ts:41-43 | the filtered history is empty exactly when no message is kept |
| AiService.GenerateText | src/services/aiService.ts:41-46 | the fixed reply is returned without a request exactly when every message is blank; otherwise the request carries the non-empty filtered history |
| AiService.PhoneRequestIsSent | src/services/aiService.ts:41-46 | when the user's turn is not blank, the history the phone machine sends from `processing` produces a request, and the request ends with the user's turn twice |
| AiService.PhoneBlankTurn | src/services/aiService.ts:41-46 | when the user's turn is blank, both copies are dropped: the earlier kept turns are sent, or the fixed reply comes back without a request when there are none |
| AiService.NormalizeUri | src/services/aiService.ts:186 | the normalised URI starts with `file://`, is the input when already prefixed, and is `file://` followed by the input otherwise |
| AiService.NormalizeIdempotent | src/services/aiService.ts:186 | normalising twice is normalising once |
| AiService.LastSegment | src/services/aiService.ts:189 | `split('/').pop()` is a suffix of the URI without a slash |
| AiService.LastSegmentAfterSlash | src/services/aiService.ts:189 | a segment shorter than the URI starts right after a slash |
| AiService.Filename | src/services/aiService.ts:189 | the file name is the last segment, or `recording.m4a` when that segment is empty |
| AiService.FilenameIsPlain | src/services/aiService.ts:189 | the file name is never empty and never contains a slash |
| AiService.TranscribeUpload | src/services/aiService.ts:186-202 | the upload's URI carries the `file://` prefix and its name is the file name of that URI |
| AiService.TrailingSlashUsesDefault | src/services/aiService.ts:189 | a URI ending in a slash is uploaded as `recording.m4a` |
| AiService.TranscriptText | src/services/aiService.ts:225 | a missing transcription text becomes the empty string |
| AiService.AudioSession.InitAudioMode | src/services/aiService.ts:16-26 | the platform is asked only while the flag is false; the flag is then set exactly when the call succeeds |
| AiService.PlayAudioThenRingtone | src/services/aiService.ts:118-157 | with a platform that always succeeds, a sound followed by the ringtone asks for the audio mode once, and not at all when it was already set |
| ScamScenarios.RegistryIsTotal | src/config/scamScenarios.ts:354-363 | every scam type has a registry entry |
| ScamScenarios.GetScenario | src/config/scamScenarios.ts:365-367 | the lookup returns the registry entry; the grandchild fallback is never taken |
| ScamScenarios.IdMatchesIff | src/config/scamScenarios.ts:136-363 | a scenario carries the type it was looked up by exactly for grandchild, bank security and Hydro-Québec |
| ScamScenarios.PlaceholdersAreGrandchild | src/config/scamScenarios.ts:359-362 | the IRS, tech-support, romance and lottery types return the grandchild persona, whose id is `grandchild` |
| ScamScenarios.VoiceConfiguration | src/config/scamScenarios.ts:191-285 | bank security and Hydro-Québec switch from the automated voice to a different agent voice; grandchild and the placeholders have one voice and no `voices` entry |
| ScamScenarios.ToolsAreDetectionTools | src/config/scamScenarios.ts:50-350 | every persona offers the same two tools, `victim_provided_sensitive_info` and `victim_showed_suspicion` |
| ScamScenarios.DetectionToolsWellFormed | src/config/scamScenarios.ts:67-128 | every required parameter name of every tool is one of its properties |
| TestMode.RouteParams | src/context/TestModeContext.tsx:75-198 | every entry opens in test mode with its scenario named; exactly the entries shown on the messaging screen name a conversation to open, and it is the scenario itself |
| TestMode.CatalogueScreens | src/context/TestModeContext.tsx:75-198 | every entry of both catalogues navigates to the screen of its category: calls to `ScamCall`, texts to `Message`, emails to `Gmail` |
| TestMode.LegitimateScenarioIsId | src/context/TestModeContext.tsx:140-198 | every legitimate entry's `scenario` parameter is its own id |
| TestMode.MergeMetrics | src/context/TestModeContext.tsx:411-413 | the merge has the keys of both maps; a given field takes the patch's value and every other field keeps its old one |
| TestMode.GradeMonotone | src/context/TestModeContext.tsx:360-364 | a higher score never earns a lower grade |
| TestMode.CalculateScore | src/context/TestModeContext.tsx:235-366 | the step-by-step score, grade and feedback equal the assessment function's |
| TestMode.ScoreInRange | src/context/TestModeContext.tsx:258-270 | the score before the clamp already lies in [10, 100], so the clamp changes nothing and the grade is the grade of the returned score |
| TestMode.LegitimateScoring | src/context/TestModeContext.tsx:240-270 | legitimate scenarios check, in order: reported gives 40 (F), trusted gives 100, link clicked gives 95 plus the capped bonus, otherwise 70 (C) |
| TestMode.DurationAdjustmentCases | src/context/TestModeContext.tsx:291-300 | each call-length adjustment holds exactly for its range of truthy durations; a zero or missing duration gives none |
| TestMode.SharingOnCall | src/context/TestModeContext.tsx:277-300 | sharing information on a call takes priority over every other flag and leaves a score between 30 and 60 (D or F) |
| TestMode.SharingScoresLower | src/context/TestModeContext.tsx:277-289 | with the same duration, sharing information scores below a call that neither shared nor completed the scam |
| TestMode.CallScoring | src/context/TestModeContext.tsx:274-356 | call scams check, in order: shared (50), stayed to the end (60), suspicious (100), ended early (90), nothing (100); each is moved by the call-length adjustment, and the bonus of 5 per difficulty level above 1 is added only from 80 and capped at 100 |
| TestMode.SuspiciousCallBonus | src/context/TestModeContext.tsx:282-356 | a suspicious call of 61 to 120 seconds judged at 90 is lifted to 100 (A) by the bonus from difficulty 3 |
| TestMode.TextScoring | src/context/TestModeContext.tsx:303-318 | text scams score 100 if the link was not clicked, 30 if sensitive details were entered, 50 if a form was submitted, 70 otherwise |
| TestMode.EmailScoring | src/context/TestModeContext.tsx:320-333 | email scams score 100 if the link was not clicked, 30 if credentials were entered, 75 for a click alone |
| TestMode.WebsiteScoring | src/context/TestModeContext.tsx:335-347 | fake websites score 10 for payment details, 25 for credentials, 50 for a submitted form, 100 otherwise |
| TestMode.NothingRecorded | src/context/TestModeContext.tsx:236-366 | with no metrics, a scam scores 100 (A) and a legitimate scenario 70 (C) |
| TestMode.TakeLegitimate | src/context/TestModeContext.tsx:205-210 | the legitimate entries are the first `legitCount` of the shuffled list |
| TestMode.PickPerCategory | src/context/TestModeContext.tsx:214-221 | one draw is appended from each of the call, text and email pools, in that order |
| TestMode.FillFromRemaining | src/context/TestModeContext.tsx:223-228 | the fill keeps the chosen prefix and stops at `count` entries or when no unchosen scam remains |
| TestMode.SelectFrom | src/context/TestModeContext.tsx:201-232 | over any pools: the session is sorted by difficulty, has 1 or 2 legitimate entries, a scam of each of call, text and email, no id twice, only pool entries, and a length fixed by `count` |
| TestMode.SelectScamsForSession | src/context/TestModeContext.tsx:201-232 | the same over the two catalogues, and at most `count` entries when `count` is at least 5 |
| TestMode.SessionOfSix | src/context/TestModeContext.tsx:384 | the session `startTestMode` asks for always has exactly six entries of that shape |
| TestMode.ElapsedSeconds | src/context/TestModeContext.tsx:425-426 | the elapsed time is the milliseconds rounded down to whole seconds |
| TestMode.StartTimeOf | src/context/TestModeContext.tsx:420 | a missing or zero start time counts as starting at the end time |
| TestMode.FinalMetrics | src/context/TestModeContext.tsx:423-427 | `timeBeforeAction` is always the elapsed time; `callDuration` is the elapsed time for calls and absent otherwise; every other field is as recorded |
| TestMode.ResultOf | src/context/TestModeContext.tsx:419-439 | the result carries the scenario, the end time, the start time and the final metrics, and is scored by `calculateScore` on those metrics, within [10, 100] |
| TestMode.BuildResult | src/context/TestModeContext.tsx:416-439 | the result built step by step is that result |
| TestMode.JudgeIgnoresTiming | src/context/TestModeContext.tsx:240-350 | outside call scams the verdict reads neither timing field |
| TestMode.TimingOnlyScoresCalls | src/context/TestModeContext.tsx:423-429 | outside call scams the added timing never changes the score or the feedback |
| TestMode.UnstartedCallHasNoAdjustment | src/context/TestModeContext.tsx:420-425 | a call completed without a recorded start lasts 0 seconds and gets no duration adjustment |
| TestMode.RoundedMean | src/context/TestModeContext.tsx:461 | `Math.round(total / n)` is the integer nearest to the mean, with halves rounded up |
| TestMode.OverallScore | src/context/TestModeContext.tsx:457-471 | with no results the overall score is 0 with grade N/A; otherwise it is the rounded mean, graded by the same thresholds |
| TestMode.SumBounds | src/context/TestModeContext.tsx:460 | a sum of scores in [lo, hi] lies in [n·lo, n·hi] |
| TestMode.MeanBounds | src/context/TestModeContext.tsx:460-461 | the rounded mean of scores in [lo, hi] lies in [lo, hi] |
| TestMode.OverallInRange | src/context/TestModeContext.tsx:457-471 | scores in [0, 100] average to a score in [0, 100] |
| TestMode.ResultsMatchAppend | src/context/TestModeContext.tsx:441-446 | appending the result for the next scenario keeps results aligned with the session |
| TestMode.TestModeProvider.constructor | src/context/TestModeContext.tsx:371-381 | the provider starts inactive, with an empty session, no start time and no metrics |
| TestMode.TestModeProvider.StartTestMode | src/context/TestModeContext.tsx:383-394 | a fresh active session of six selected scenarios; the session id is the clock reading in decimal; no results and no metrics |
| TestMode.TestModeProvider.EndTestMode | src/context/TestModeContext.tsx:396-401 | only the active flag changes |
| TestMode.TestModeProvider.StartScam | src/context/TestModeContext.tsx:403-409 | the start time is stamped and the metrics are cleared, with nothing else changed |
| TestMode.TestModeProvider.RecordMetrics | src/context/TestModeContext.tsx:411-413 | the given fields overwrite, every other metric and all of the state stay |
| TestMode.TestModeProvider.GetCurrentScam | src/context/TestModeContext.tsx:453-455 | the current entry exists exactly while the index is in range, and is the entry at the index |
| TestMode.TestModeProvider.CompleteCurrentScam | src/context/TestModeContext.tsx:415-451 | with a current entry: exactly one result is appended, the index advances by one, and the start time and metrics are cleared. Without one: the result is null and nothing changes. |
| TestMode.TestModeProvider.GetOverallScore | src/context/TestModeContext.tsx:457-471 | the overall score of the results, always within [0, 100] |
| MailMachine.EmailsForScenario | src/machines/mailMachine.ts:101-108 | `loto-quebec` loads the Loto-Québec list and every other value the default list |
| MailMachine.Dedup | src/machines/mailMachine.ts:155-158 | `Array.from(new Set(s))` has no repetitions and the same members as `s` |
| MailMachine.DedupOfDistinct | src/machines/mailMachine.ts:155 | a list without repetitions comes back unchanged |
| MailMachine.RemoveId | src/machines/mailMachine.ts:156-157 | `set.delete(id)` removes exactly that id |
| MailMachine.RemoveIdKeepsDistinct | src/machines/mailMachine.ts:156-157 | deleting from a list without repetitions leaves one without repetitions |
| MailMachine.ToggleMembers | src/machines/mailMachine.ts:151-161 | toggling flips the membership of exactly that id and never creates a duplicate |
| MailMachine.ToggleOrder | src/machines/mailMachine.ts:151-161 | a new id is appended at the end, a present one is removed, and toggling a new id twice restores the list |
| MailMachine.RemoveIdAppend | src/machines/mailMachine.ts:156-157 | deleting an id just appended restores the list |
| MailMachine.Without | src/machines/mailMachine.ts:169-170 | the filter keeps no email whose id is listed |
| MailMachine.WithoutMembers | src/machines/mailMachine.ts:169-170 | an email is kept exactly when it was present and its id is not listed |
| MailMachine.WithoutAppend | src/machines/mailMachine.ts:169-170 | the filter distributes over concatenation, so the kept emails stay in order |
| MailMachine.WithoutNothing | src/machines/mailMachine.ts:169-170 | filtering by no ids keeps the list |
| MailMachine.OneDeleted | src/machines/mailMachine.ts:191 | the single-deletion text is the count message for one |
| MailMachine.StepKeepsInv | src/machines/mailMachine.ts:130-221 | every transition preserves the invariant: ids are selected only in `selection`, never twice, and an email is open exactly in `detail` and `compose` |
| MailMachine.ReachableInv | src/machines/mailMachine.ts:118-221 | the invariant holds in every reachable configuration |
| MailMachine.LongPressSelects | src/machines/mailMachine.ts:141-144 | a long press in the normal inbox enters `selection` with exactly that id selected |
| MailMachine.ToggleFlipsOne | src/machines/mailMachine.ts:151-161 | TOGGLE_SELECTION changes only the selection, flipping that id alone, with no duplicates |
| MailMachine.DeleteSelectedRemoves | src/machines/mailMachine.ts:166-173 | DELETE_SELECTED removes exactly the selected emails, clears the selection, reports "k deleted" for k selected ids and returns to `normal` |
| MailMachine.DeleteEmailRemoves | src/machines/mailMachine.ts:186-193 | DELETE_EMAIL removes the emails with the open id, closes the email, reports "1 deleted" and returns to the inbox |
| MailMachine.ComposeFlow | src/machines/mailMachine.ts:185-205 | REPLY opens the composer; BACK_FROM_COMPOSE returns to the same email; SEND_REPLY goes to the inbox with "Message sent!", no open email and the emails untouched |
| MailMachine.GlobalEvents | src/machines/mailMachine.ts:209-221 | RESET restores the initial configuration from every state; DISMISS_SNACKBAR clears only the snackbar |
| MailMachine.LoadScenarioOnlyInNormal | src/machines/mailMachine.ts:132-136 | LOAD_SCENARIO replaces the emails in the normal inbox only |
| MailMachine.ScenarioLists | src/machines/mailMachine.ts:47-99 | the Loto-Québec list starts with its one scam email; the default list has no scam |
| MailMachine.DetailIgnoresOthers | src/machines/mailMachine.ts:182-195 | in `detail` only its three events and the two machine-wide events have an effect |
| MailMachine.ComposeIgnoresOthers | src/machines/mailMachine.ts:196-207 | in `compose` only its two events and the two machine-wide events have an effect |
| MailMachine.EmailsChangeOnlyByDeletion | src/machines/mailMachine.ts:130-221 | only RESET, LOAD_SCENARIO and the two deletions change the email list |
| MessageMachine.ConversationsForScenario | src/machines/messageMachine.ts:236-256 | a known scenario opens with its own unread conversation; anything else gives the defaults followed by the Purolator list |
| MessageMachine.DefaultViewRepeatsMom | src/machines/messageMachine.ts:254 | the default view lists Mom's conversation twice |
| MessageMachine.ClinicAnswer | src/machines/messageMachine.ts:306-319 | the clinic adds at most one message, and it is a received one |
| MessageMachine.RepliedMessages | src/machines/messageMachine.ts:303-319 | the old messages followed by the sent reply, then at most one more |
| MessageMachine.BuildNewMessages | src/machines/messageMachine.ts:303-319 | the list built by copying and pushing is those messages |
| MessageMachine.SendReplyTo | src/machines/messageMachine.ts:300-327 | the reply goes into every conversation with the open id; the others, the length and the order are unchanged |
| MessageMachine.StepKeepsInv | src/machines/messageMachine.ts:272-336 | a conversation is open exactly in `conversation`, and no reply text is pending in `list` |
| MessageMachine.ReachableInv | src/machines/messageMachine.ts:264-336 | the invariant holds in every reachable configuration |
| MessageMachine.LoadScenarioOnlyInList | src/machines/messageMachine.ts:275-279 | LOAD_SCENARIO replaces the list in `list` only |
| MessageMachine.OpenAndBack | src/machines/messageMachine.ts:280-294 | OPEN_CONVERSATION opens that id; BACK returns to the list and clears the open id and the reply |
| MessageMachine.SendReplyAppends | src/machines/messageMachine.ts:298-330 | SEND_REPLY appends the typed text, empty or not, to the open conversation. Every other conversation, the list's length and order and the theme are unchanged. The reply is cleared and the machine stays in `conversation`. |
| MessageMachine.ClinicConfirms | src/machines/messageMachine.ts:306-312 | in the clinic conversation a trimmed `1` adds the confirmation after the sent message |
| MessageMachine.ClinicCancels | src/machines/messageMachine.ts:313-318 | in the clinic conversation a trimmed `2` adds the cancellation after the sent message |
| MessageMachine.NoClinicAnswer | src/machines/messageMachine.ts:303-319 | any other reply, and any reply elsewhere, adds only the sent message |
| MessageMachine.ReplyToMomLandsTwice | src/machines/messageMachine.ts:254-303 | in the default view a reply to Mom lands in both copies of her conversation |
| MessageMachine.TypeReplyOnlyInConversation | src/machines/messageMachine.ts:295-297 | TYPE_REPLY sets the reply in `conversation` only |
| MessageMachine.ToggleThemeTwice | src/machines/messageMachine.ts:284-334 | TOGGLE_THEME flips the theme in both states, so doing it twice is the identity |
| CanadaPostPayment.ValidateCard | src/screens/CanadaPostPaymentScreen.tsx:31-50 | the card is accepted exactly when the name has at least 3 code units, the card number without white space at least 15, the expiry matches `^\d{2}/\d{2}$` and the CVV has at least 3 |
| CanadaPostPayment.ErrorIsFirstFailure | src/screens/CanadaPostPaymentScreen.tsx:33-48 | each error is reported exactly when its check fails and every earlier check passed |
| CanadaPostPayment.CardWhitespaceIgnored | src/screens/CanadaPostPaymentScreen.tsx:37 | white space inserted anywhere in the card number changes neither the error nor the verdict |
| CanadaPostPayment.AcceptedExpiry | src/screens/CanadaPostPaymentScreen.tsx:41 | an accepted expiry has five characters, a slash at index 2 and decimal digits elsewhere |
| CanadaPostPayment.NameCountsCodeUnits | src/screens/CanadaPostPaymentScreen.tsx:33 | three characters always pass the name check and one never does; two pass exactly when one of them lies above U+FFFF; inside the Basic Multilingual Plane the check is a three-character minimum |
| CanadaPostPayment.ExpiryOnChange | src/screens/CanadaPostPaymentScreen.tsx:227-234 | going from one character to two appends a slash; any other edit is stored as typed |
| CanadaPostPayment.TypingFourDigits | src/screens/CanadaPostPaymentScreen.tsx:227-234 | four digits typed into an empty field become `MM/YY`, which the validator's pattern accepts |
| CanadaPostPayment.BackspaceOverSlash | src/screens/CanadaPostPaymentScreen.tsx:229 | deleting the slash of `MM/` leaves `MM`, without re-adding the slash |
| CanadaPostPayment.HandlePay | src/screens/CanadaPostPaymentScreen.tsx:52-59 | the alert opens exactly for a valid card, and the credentials metrics are recorded exactly for a valid card in test mode |
| CanadaPostPayment.PaymentFailsTextScam | src/screens/CanadaPostPaymentScreen.tsx:52-59 | a recorded payment after clicking the link scores a text scam 30 (F) |
| CanadaPostPayment.OnArrival | src/screens/CanadaPostPaymentScreen.tsx:24-29 | arriving in test mode records the link click only while nothing has been recorded, and then sets the flag |
| CanadaPostPayment.ArrivalRecordsOnce | src/screens/CanadaPostPaymentScreen.tsx:24-29 | running the arrival effect again records nothing more |
| ScamCallScreen.FieldFacts | src/screens/ScamCallScreen.tsx:320 | a padded field has at least two digits, exactly two below 100, and reads back as its number |
| ScamCallScreen.FormatTime | src/screens/ScamCallScreen.tsx:317-321 | two digit fields around a colon. The minutes field reads back as `sec div 60`, and the two-digit seconds field as `sec mod 60`. |
| ScamCallScreen.FormatTimeWidth | src/screens/ScamCallScreen.tsx:317-321 | the time is exactly five characters wide exactly when `sec < 6000`; minutes are padded but never truncated |
| ScamCallScreen.OrDefault | src/screens/ScamCallScreen.tsx:95-97 | `value || fallback` gives the value when present and non-empty, the fallback otherwise |
| ScamCallScreen.Display | src/screens/ScamCallScreen.tsx:95-97 | all three display strings are non-empty; without a scenario they are "Unknown Caller", "+1 (514) 555-0123" and "Phone Scam" |
| ScamCallScreen.PersonaDisplay | src/screens/ScamCallScreen.tsx:95-97 | every persona fills in all three fields, so no default shows |
| ScamCallScreen.OutcomeMetrics | src/screens/ScamCallScreen.tsx:79-83 | `sharedSensitiveInfo` is true exactly for `victim_failed`, `showedSuspicion` exactly for `victim_suspicious`, and the duration is recorded |
| ScamCallScreen.OnOutcome | src/screens/ScamCallScreen.tsx:74-92 | metrics are recorded exactly for a decided outcome in test mode while the flag is clear, and the flag is set whenever that holds |
| ScamCallScreen.RecordedOncePerAttempt | src/screens/ScamCallScreen.tsx:74-92 | between two "Try Again" presses the outcome is recorded at most once, never once recorded, and the flag stays set afterwards |
| ScamCallScreen.GuardStays | src/screens/ScamCallScreen.tsx:77-78 | without "Try Again" a set flag stays set |
| ScamCallScreen.TryAgainRearms | src/screens/ScamCallScreen.tsx:528-531 | after "Try Again" the next decided outcome in test mode is recorded |
| ScamCallScreen.PracticeRecordsNothing | src/screens/ScamCallScreen.tsx:77 | outside test mode nothing is ever recorded |
| ScamCallScreen.ContinuePatch | src/screens/ScamCallScreen.tsx:539-542 | `endedCallEarly` is true exactly when the outcome is not decided, and the duration is recorded |
| ScamCallScreen.ContinueMetrics | src/screens/ScamCallScreen.tsx:538-543 | the patch is merged in only when no outcome was recorded |
| ScamCallScreen.UndecidedCallEndedEarly | src/screens/ScamCallScreen.tsx:538-544 | a call scam left undecided with nothing else recorded is scored as ended early |
| ScamCallScreen.FailedCallSharedInfo | src/screens/ScamCallScreen.tsx:79-83 | a failed outcome on a call scam yields the shared-information feedback and at most 60, whatever was recorded before |
| ScamCallScreen.RecordedDurationIsReplaced | src/screens/ScamCallScreen.tsx:82 | the machine's duration that the screen records never affects the result, because completion replaces it |
| ScamCallScreen.EndedEarlyPatchIsLost | src/screens/ScamCallScreen.tsx:538-544 | as written, an undecided call with nothing recorded gets no feedback at all, unlike the completion that sees the patch |
| ScamCallScreen.CallScreen.constructor | src/screens/ScamCallScreen.tsx:60-71 | the screen starts with the machine's initial configuration and a clear flag |
| ScamCallScreen.CallScreen.Send | src/screens/ScamCallScreen.tsx:123-127 | an event advances the machine by one step and leaves the flag |
| ScamCallScreen.CallScreen.OutcomeChanged | src/screens/ScamCallScreen.tsx:74-92 | the provider's metrics and the flag change as the outcome effect says, and the rest of the provider is unchanged |
| ScamCallScreen.CallScreen.TryAgain | src/screens/ScamCallScreen.tsx:528-531 | the flag is cleared and the machine restarts |
| ScamCallScreen.CallScreen.ContinueTest | src/screens/ScamCallScreen.tsx:535-548 | in test mode with a current scenario, its result is built from the metrics with the patch merged in and appended; the index advances and the start time and metrics are cleared. With no current scenario, only the patch is merged in. Outside test mode nothing changes. The active flag, the session and its id are always kept |

## Findings

| source | as written | input that shows it | evidently intended | confidence | as-written member | corrected member |
|---|---|---|---|---|---|---|
| src/screens/ScamCallScreen.tsx:538-544 | "Continue Test" calls `recordMetrics({ endedCallEarly, callDuration })` and then `completeCurrentScam()` in the same handler. That callback closes over the `currentMetrics` of the current render, so it scores the metrics from before the patch, and its `setCurrentMetrics({})` then drops the patch. | a test-mode call scam, with no outcome and nothing recorded, ended with "Continue Test": the result has no feedback and no ended-early penalty | the completed result includes the ended-early patch, so the call is reported as ended early | not executed; follows from React's closure and update-queue semantics | ScamCallScreen.EndedEarlyPatchIsLost | ScamCallScreen.CallScreen.ContinueTest |

## Left out

- Rendering, styles, modals, animation and navigation are not modelled. `navigation.navigate` and `goBack` after "Continue Test" are not modelled either. Nothing in them decides a value.
- Prompt texts, scenario descriptions, opening lines, email bodies, previews, times and avatar colours are content. Scenario conversations keep only their opening words, in `MessageMachine.Notice`. For Mom, Boss, Ex and Landlord, only the message texts are kept.
- Network, audio and file I/O in `src/services/aiService.ts` are left out: the requests to the language and speech providers, the players, the file writes and the base64 loop. `generateText` is modelled as its decision, a request or the fixed reply. `transcribeAudio` is modelled as the upload it would send and the text fallback.
- Failed requests inside `generateText` and `transcribeAudio` rethrow. They are not modelled; the phone machine's `AiError` event stands for them.
- The xstate runtime, the timer actor and the AI actor's promise become the events `Tick`, `AiDone` and `AiError`. Concurrency between them is not modelled.
- AiService.AudioSession.InitAudioMode: calls are modelled one after another. `initAudioMode` is `async`, so two overlapping calls can both see the flag unset before either sets it, and both then ask the platform. That overlap is not modelled.
- Audio playback polling, the ringtone, recording permissions and mode switching in `ScamCallScreen.tsx` and `PhoneScreen.tsx` are timers and platform audio, so they are left out.
- The `setTimeout` that shows the feedback modal two seconds after an outcome is a timer. `showScamFeedback` is not modelled.
- `Math.random` and `Date.now` are parameters. In `selectScamsForSession` they are `coin`, the shuffle `order` and the draws `picks`. In `startTestMode`, `startScam` and `completeCurrentScam` they are the clock reading `now`.
- TestMode.SelectScamsForSession: the random comparator in the shuffle is modelled as the permutation it produces. Any permutation is allowed, so no claim about the shuffle's distribution is made.
- TestMode.SelectScamsForSession: "at most `count` entries" is proved only for `count >= 5`. A smaller `count` still gets the legitimate entries plus one scam per category; the exact length is stated for every `count`. The only caller passes 6.
- TestMode.FinalMetrics: `callDuration: undefined` is modelled as an absent key. Scoring reads only truthiness, so nothing the model states depends on the difference.
- React's batching of `setState` calls is modelled as updates applied in order. The stale callback in "Continue Test" is the exception, shown under Findings.
- `scamOutcome`, `toolCalls`, `speakingOpening`, `recording`, `transcribing` and `SET_SCENARIO` are not defined by `src/machines/phoneMachine.ts`. Outcome tracking, transcription and the opening line have no source, so the outcome is a parameter and the `SET_SCENARIO` event is dropped.
- PhoneScreen.tsx is not part of this model. That covers its trimmed-input guard on USER_SPEAK and its copy of `formatTime`. The machine itself accepts any text, and the model does the same.
- ScamCallScreen.FormatTime: the round trip is stated as two facts: the minutes field reads back as `sec div 60` and the seconds field as `sec mod 60`. The combined equation `minutes × 60 + seconds = sec` follows from Euclidean division and is not restated.
- CanadaPostPayment.ExpiryOnChange: the input's `maxLength={5}` limit, which the platform enforces, is not modelled.
- CanadaPostPaymentScreen.tsx's `handleFinishSimulation` is not modelled. It calls `completeCurrentScam`, which `TestMode.TestModeProvider.CompleteCurrentScam` models, and then navigates.
- The `enableRecordingMode` helper is not modelled, because it only calls the platform.
