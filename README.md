# AEGIS — a Dafny model of the safety pipeline and the chat client

AEGIS is a self-reflection chat for teenagers. This project models its moderation pipeline
and the client state around it:

- **Crisis keyword detector** (`SafetyCheck`). The regular expression `/\b(kms|kill myself|…)\b/i`
  is modelled by ECMAScript's own rules: `\b` is IsWordChar over `[A-Za-z0-9_]`, and the `i` flag
  applies Canonicalize. A recursive left-to-right scanner is proved equal to the declarative
  "some phrase matches at some position between two word boundaries".
- **`process-message` edge function** (`ProcessMessage`). It holds the mode-dependent response
  schema and the normalisation of the requested mode. The handler is a method over a `Store`
  holding the `chats` and `summaries` tables. It makes its inserts in order and answers 500 at the
  first failure. Earlier rows stay.
- **`/api/gemini` handler** (`GeminiApi`). It validates in a fixed order (405, then 400, then the
  configuration 500). It calls Gemini and repairs `wellbeingScore` in place, under strict-mode
  JavaScript semantics.
- **Client service `getAegisResponse`** (`GeminiService`). It picks the error message for a
  non-ok status, repairs the score again on the client and rethrows.
- **`App` screen state** (`App.Session`). It covers the conversation, loading, session and error
  state; sending a message, with the local crisis short-cut before any request; a new session; and
  the header's "Last Score".
- **Message box** (`ChatInput.ChatInput`), **typewriter animation** (`TypingEffect.TypingEffect`)
  and **score ring colours** (`ScoreDisplay`).

Shared JavaScript behaviour lives in `Js`:

- JSON values; property reads that may be `undefined`; truthiness.
- Thrown values: an `Error` with a message, or anything else.
- `String(value)`, decimal rendering and `String.prototype.trim`.

Everything outside the program is a parameter of the operation that uses it:

- The Gemini call together with `JSON.parse` (`GeminiApi.Generation`).
- Each Supabase insert (`ProcessMessage.InsertResult`) and `createClient`
  (`ProcessMessage.Environment.clientError`).
- The API key.
- `fetch` together with `response.json()` (`GeminiService.FetchOutcome`, `Js.BodyRead`).
- `Date.now()` (`clock` parameters).

The model follows what the code does:

- The `process-message` function does not clamp the score.
- It does not strip a `therapistSummary` from a PRIVATE-mode answer.
- A failed summary insert fails the request, despite the comment on that line.

## Model

| member | source | states |
|---|---|---|
| SafetyCheck.CheckForCriticalKeywords | src/utils/safetyCheck.ts:1-22 | true exactly when some listed phrase matches, up to ASCII case, at some position with a word boundary on both sides (string ends count as boundaries); as a function it is total and gives the same answer every time |
| SafetyCheck.ScanFromIsSearch | src/utils/safetyCheck.ts:13-22 | the scanner started at position `p` finds a hit iff some phrase hits at one of the positions `p..|s|` |
| SafetyCheck.KeywordFromIsSearch | src/utils/safetyCheck.ts:13 | trying the alternatives from index `n` on at one position succeeds iff one of them hits there |
| SafetyCheck.MismatchBlocks | src/utils/safetyCheck.ts:13 | one character whose case-folded form differs from the phrase's stops the phrase matching there |
| SafetyCheck.MatchTransfers | src/utils/safetyCheck.ts:13 | a phrase that matches at a position also matches there in any text that differs only in ASCII case |
| SafetyCheck.Canonicalize | src/utils/safetyCheck.ts:13 | the `i` flag folds a lower-case ASCII letter to its upper-case form and leaves every other character alone |
| SafetyCheck.KeywordsAreLong | src/utils/safetyCheck.ts:1-10 | every listed phrase has at least three characters |
| SafetyCheck.ShortTextIsNeverDetected | src/utils/safetyCheck.ts:1-22 | text shorter than three characters, the empty string included, is never flagged |
| SafetyCheck.CanonicalizeKeepsWordChars | src/utils/safetyCheck.ts:13 | characters with the same case-folded form agree on being word characters, so `\b` ignores case |
| SafetyCheck.HitTransfers | src/utils/safetyCheck.ts:13 | a hit at a position survives replacing the text by one that differs only in ASCII case |
| SafetyCheck.CaseDoesNotMatter | src/utils/safetyCheck.ts:13 | two texts that differ only in ASCII letter case get the same verdict |
| SafetyCheck.UpperCaseKeepsVerdict | src/utils/safetyCheck.ts:13 | shouting a message neither hides a crisis phrase nor raises a false alarm |
| SafetyCheck.KillMyselfSentenceIsDetected | src/utils/safetyCheck.ts:3-13 | "I want to kill myself" is flagged |
| SafetyCheck.CaseVariantsAreDetected | src/utils/safetyCheck.ts:13 | "KILL MYSELF" and "Kill Myself" are flagged |
| SafetyCheck.BothSelfHarmSpellingsAreDetected | src/utils/safetyCheck.ts:4-6 | "self harm" and "self-harm" are both flagged |
| SafetyCheck.EmbeddedKmsIsNotDetected | src/utils/safetyCheck.ts:12-13 | "skms" is not flagged: no boundary before the phrase |
| SafetyCheck.KmsFollowedByLetterIsNotDetected | src/utils/safetyCheck.ts:12-13 | "kmsx" is not flagged: no boundary after the phrase |
| SafetyCheck.KmsFollowedByUnderscoreIsNotDetected | src/utils/safetyCheck.ts:12-13 | "kms_" is not flagged: the underscore is a word character, so there is no boundary after the phrase |
| SafetyCheck.SuicidesIsNotDetected | src/utils/safetyCheck.ts:12-13 | "suicides" is not flagged |
| SafetyCheck.DoubleSpaceIsNotDetected | src/utils/safetyCheck.ts:4-13 | inner spacing must match exactly: "kill  myself" is not flagged |
| Schemas.PropertySchema | supabase/functions/process-message/index.ts:56-77 | the schema looked up for a declared property is the one declared under that name |
| ProcessMessage.GetDynamicSchema | supabase/functions/process-message/index.ts:80-96 | THERAPIST requires exactly the five base fields plus `therapistSummary` and declares that summary; PRIVATE requires exactly the five base fields and does not declare `therapistSummary` at all; every required field is declared |
| ProcessMessage.SummarySchemaShape | supabase/functions/process-message/index.ts:56-77 | the summary requires `moodCues` and `possibleStressors` (string arrays) and `suggestedFollowUp` (string), all declared |
| ProcessMessage.PrivateSchemaIsApiSchema | supabase/functions/process-message/index.ts:33-54 | descriptions aside, the PRIVATE schema is the `/api/gemini` schema |
| ProcessMessage.NormaliseMode | supabase/functions/process-message/index.ts:162 | the mode is THERAPIST exactly when the request says the string "THERAPIST"; any other value means PRIVATE |
| ProcessMessage.HasParameters | supabase/functions/process-message/index.ts:140-141 | a request with truthy `userInput`, `mode` and `teenId` is an object carrying all three, and its `mode` is neither "" nor `null` |
| ProcessMessage.ErrorResponse | supabase/functions/process-message/index.ts:201-206 | a caught error answers 500 with `{error: message}` |
| ProcessMessage.Store.constructor | supabase/functions/process-message/index.ts:146-149 | both tables start empty |
| ProcessMessage.Store.InsertChat | supabase/functions/process-message/index.ts:152-155 | a successful insert appends exactly the row to `chats`; a failed one reports its error and changes nothing |
| ProcessMessage.Store.InsertSummary | supabase/functions/process-message/index.ts:189-193 | a successful insert appends exactly the row to `summaries`; a failed one reports its error and changes nothing |
| ProcessMessage.AfterGeneration | supabase/functions/process-message/index.ts:175-199 | once Gemini has answered, the USER row is written and the mode's schema was requested; at most the AEGIS row and one summary row follow, and a 200 comes with exactly the USER and AEGIS rows |
| ProcessMessage.ServeSpec | supabase/functions/process-message/index.ts:133-208 | every request is answered 200 or 500, with at most two chat rows and one summary row written, and a summary row only after both chat rows |
| ProcessMessage.Serve | supabase/functions/process-message/index.ts:133-208 | the handler appends to the tables exactly the rows, answers exactly the response, and asks Gemini for exactly the schema, of the step-by-step run that stops at the first failure |
| ProcessMessage.SchemaFollowsMode | supabase/functions/process-message/index.ts:162-171 | Gemini is given a response schema exactly when it is called, and it is `getDynamicSchema` of the normalised mode |
| ProcessMessage.PrivateRequestAsksForNoSummary | supabase/functions/process-message/index.ts:162-171 | a request whose mode is not the string "THERAPIST" asks for the five base fields only, with no `therapistSummary` declared |
| ProcessMessage.TherapistRequestAsksForSummary | supabase/functions/process-message/index.ts:162-171 | a THERAPIST request asks for the base fields plus a required therapist summary of the summary schema |
| ProcessMessage.MissingParametersWriteNothing | supabase/functions/process-message/index.ts:140-143 | a falsy `userInput`, `mode` or `teenId` answers 500, writes no row and never calls Gemini |
| ProcessMessage.UserRowPrecedesGemini | supabase/functions/process-message/index.ts:151-177 | a missing key or a failed generation leaves exactly the one USER row and no AEGIS row |
| ProcessMessage.GeminiCalledOnlyAfterUserRow | supabase/functions/process-message/index.ts:151-164 | whenever Gemini is called, the USER row was written first |
| ProcessMessage.SuccessWritesBothRows | supabase/functions/process-message/index.ts:175-199 | a 200 comes with the USER row then the AEGIS row; the AEGIS row holds the 200 body, with the score not repaired |
| ProcessMessage.SummaryOnlyInTherapistMode | supabase/functions/process-message/index.ts:187-194 | a summary row is written only in THERAPIST mode for a truthy `therapistSummary`, and it holds that summary |
| ProcessMessage.PrivateSummaryStaysInChatRow | supabase/functions/process-message/index.ts:180-199 | in PRIVATE mode a model-supplied summary writes no summary row but stays in the AEGIS row and the 200 body |
| ProcessMessage.TherapistSummaryIsStored | supabase/functions/process-message/index.ts:187-199 | a THERAPIST answer with a truthy summary, with every step succeeding, writes the USER row, the AEGIS row and the summary row, and answers 200 with the answer |
| ProcessMessage.AllStepsSucceedAnswer200 | supabase/functions/process-message/index.ts:151-199 | when every step succeeds and the answer is an object, either mode answers 200 with the answer and writes both chat rows |
| ProcessMessage.FailedSummaryInsertFails | supabase/functions/process-message/index.ts:188-194 | a failed summary insert answers 500 with its error; both chat rows stay |
| ProcessMessage.FailedChatInsertAnswersItsError | supabase/functions/process-message/index.ts:151-185 | a failed chat insert answers 500 with its own error; after a failed USER insert nothing is written and Gemini is not called |
| GeminiApi.ResponseSchemaShape | api/gemini.ts:9-34 | the schema requires exactly the five base fields, all declared, and has no `therapistSummary` |
| GeminiApi.ScoreIsValid | api/gemini.ts:104 | the score check passes exactly for a number within 0..100, both bounds included |
| GeminiApi.ValidUserInput | api/gemini.ts:72 | `userInput` passes the check exactly when the request is an object whose `userInput` is a non-empty string |
| GeminiApi.KeyConfigured | api/gemini.ts:79-80 | the key passes the falsiness check exactly when it is set and non-empty, as JavaScript truthiness of a string decides |
| GeminiApi.Repaired | api/gemini.ts:104-106 | for an object, a score in 0..100 (bounds included) is kept, anything else becomes 50, and every other field is unchanged; `null` and primitives throw a TypeError; an array is returned unchanged |
| GeminiApi.RepairIsIdempotent | api/gemini.ts:104-106 | repairing a repaired response changes nothing |
| GeminiApi.FailureResponse | api/gemini.ts:113-120 | the catch answers 500 with "Failed to get a response from AEGIS." and the error's message, or "An unknown error occurred." for a non-Error |
| GeminiApi.GenerationResponse | api/gemini.ts:90-120 | after the call the answer is 200 exactly when the answer parsed and could be repaired, and then carries exactly the repaired value; otherwise it is 500 with "Failed to get a response from AEGIS.", and a thrown call or parse gives the `catch` block's response for what was thrown |
| GeminiApi.Handle | api/gemini.ts:61-121 | non-POST gets 405 before the body is read; an invalid `userInput` gets 400 before the key is checked; a missing key gets 500; Gemini is called, with `responseSchema`, exactly when all checks pass |
| GeminiApi.SuccessIsRepaired | api/gemini.ts:104-111 | a 200 object body always has a score in 0..100, and repairing it again changes nothing |
| GeminiService.ErrorMessage | services/geminiService.ts:13-16 | a non-ok status throws the body's truthy `error`, else "Request failed with status N"; an unparsable body gives "An unknown server error occurred." |
| GeminiService.Rethrown | services/geminiService.ts:27-34 | an `Error` is rethrown with its message; anything else becomes the "temporarily unavailable" message |
| GeminiService.Outcome | services/geminiService.ts:3-35 | only an ok response with a parsed body can resolve, and then with the repaired body: an object whose score is in 0..100, or an array; every ok object body resolves |
| GeminiService.GetAegisResponse | services/geminiService.ts:3-35 | the in-place version settles exactly as `Outcome`: a thrown fetch rejects with the rethrown message, a non-ok status with the server's error message, an unreadable ok body with its parse error, and an ok body resolves repaired |
| GeminiService.ValidationErrorsAreSurfaced | services/geminiService.ts:13-16 | the 405, 400 and missing-key responses of `/api/gemini` reject with their own `error` texts |
| GeminiService.FailureIsSurfaced | services/geminiService.ts:13-16 | a failed generation rejects with "Failed to get a response from AEGIS.", whatever the details |
| GeminiService.NonOkMessageIsNonEmpty | services/geminiService.ts:13-16 | the rejection message of a non-ok response is never empty unless the body's `error` is an array |
| GeminiService.ToJsStringOfTruthyIsNonEmpty | services/geminiService.ts:15 | `String` of a truthy non-array value is never empty |
| App.SafetyAlertResponseShape | App.tsx:19-25 | the safety answer has score 5, `isSafetyAlert` true and the fixed crisis reply |
| App.SafetyReplyNames988 | App.tsx:20 | the crisis reply contains "988" |
| App.InitialResponseShape | App.tsx:11-17 | the greeting's score is `null` and it is not a safety alert |
| App.LastScoredIndex | App.tsx:99 | the reverse `find` returns the last AEGIS message whose score is not `null`, or nothing when there is none |
| App.LastScore | App.tsx:99-100 | the score of the last AEGIS message whose score is not `null`, or `null` when that score is missing or there is no such message |
| App.LastScoreInRange | App.tsx:99-100 | when every message's score is absent, `null` or valid, the header shows `null` or a score in 0..100 |
| App.LastScoreAfterAppend | App.tsx:99-100 | appending a scored message makes its score the last score; appending anything else leaves it |
| App.LastScoredPrefix | App.tsx:99 | the search over a prefix does not depend on what follows it |
| App.FreshSessionHasNoScore | App.tsx:11-17 | a fresh conversation shows no score |
| App.SafetyAlertShowsFive | App.tsx:19-25 | right after a flagged message the header shows 5 |
| App.Session.constructor | App.tsx:34-37 | the conversation opens with the greeting alone, not loading, no error |
| App.Session.InputDisabled | App.tsx:167 | the input is disabled exactly while a request is pending (no code ends a session) |
| App.Session.NewSession | App.tsx:48-53 | reset to exactly the greeting, not loading, not ended, no error |
| App.Session.BeginSend | App.tsx:55-76 | the error is cleared and the user message appended; a flagged message also gets the canned answer without any request |
| App.Session.Settle | App.tsx:78-96 | the service settles as `Outcome(fetch)`; a resolved answer is appended to the conversation as it is now; a rejection only sets the error to its message; loading ends either way |
| App.Session.SendMessage | App.tsx:55-97 | a flagged message gets the canned answer and no request; otherwise the user message is followed by the service's answer for this fetch with no error, or stands alone with the error set to the service's rejection message; loading ends and the session never ends |
| Js.NatToDecimal | App.tsx:58 | the decimal digits of a timestamp read back as the same number |
| Js.TrimStart | components/ChatInput.tsx:13-14 | the result is a suffix of the input |
| Js.TrimEnd | components/ChatInput.tsx:13-14 | the result is a prefix of the input |
| Js.TrimStartCutsWhiteSpace | components/ChatInput.tsx:13-14 | everything dropped from the start is whitespace, and the result does not start with whitespace |
| Js.TrimEndCutsWhiteSpace | components/ChatInput.tsx:13-14 | everything dropped from the end is whitespace, and the result does not end with whitespace |
| Js.Trim | components/ChatInput.tsx:13-14 | `trim` never lengthens its input, and a non-empty result neither starts nor ends with whitespace |
| Js.TrimIsSlice | components/ChatInput.tsx:13-14 | `trim` returns a contiguous piece of its input |
| Js.TrimCutsWhiteSpace | components/ChatInput.tsx:13-14 | `trim` returns a slice of its input with only whitespace around it |
| Js.TrimEmptyIffWhiteSpace | components/ChatInput.tsx:13 | `trim` gives "" exactly for whitespace-only input |
| Js.TrimIdempotent | components/ChatInput.tsx:14 | trimming twice is trimming once |
| ChatInput.ChatInput.constructor | components/ChatInput.tsx:10 | the draft starts empty |
| ChatInput.ChatInput.SetInput | components/ChatInput.tsx:31 | the draft becomes the text area's value |
| ChatInput.ChatInput.SendEnabled | components/ChatInput.tsx:46 | the button is enabled exactly when not disabled and the draft has a non-whitespace character |
| ChatInput.ChatInput.HandleSend | components/ChatInput.tsx:12-17 | sends exactly when the button would be enabled; sends the trimmed draft, never empty and with no whitespace at its ends, then clears the draft; otherwise the draft is unchanged |
| ChatInput.ChatInput.HandleKeyPress | components/ChatInput.tsx:19-24 | Enter without Shift prevents the newline and sends as the button does; any other key never sends |
| TypingEffect.TypingEffect.constructor | components/TypingEffect.tsx:10-35 | mounting starts with nothing shown, not completed, and an interval only for non-empty text |
| TypingEffect.TypingEffect.Restart | components/TypingEffect.tsx:14-35 | a new text resets the shown text to "" and completion to false, and starts an interval only for non-empty text |
| TypingEffect.TypingEffect.Tick | components/TypingEffect.tsx:20-31 | a tick shows one more character, or once all are shown stops the interval, completes and calls `onComplete` once; after that nothing changes |
| TypingEffect.TypingEffect.CursorShown | components/TypingEffect.tsx:40 | the cursor shows exactly until completion, and for ever for empty text |
| TypingEffect.TypingEffect.TypeOut | components/TypingEffect.tsx:18-33 | the running interval completes a non-empty text after `|text| + 1` ticks, showing all of it with `onComplete` called once |
| ScoreDisplay.BandOf | components/ScoreDisplay.tsx:14-18 | green from 70, amber from 40 to 69, red below 40 |
| ScoreDisplay.GetColor | components/ScoreDisplay.tsx:14-18 | "text-green-600" exactly from 70, "text-amber-500" exactly for 40..69, "text-red-600" exactly below 40 |
| ScoreDisplay.GetTrackColor | components/ScoreDisplay.tsx:20-24 | the faint variant of each band, under the same thresholds |
| ScoreDisplay.GetStrokeColor | components/ScoreDisplay.tsx:26-30 | the stroke variant of each band, under the same thresholds |
| ScoreDisplay.ColorsAgree | components/ScoreDisplay.tsx:14-30 | the number, the track and the arc always use the hue of the same band |
| ScoreDisplay.BandIsMonotone | components/ScoreDisplay.tsx:14-18 | a higher score is never shown in a lower band |
| ScoreDisplay.Boundaries | components/ScoreDisplay.tsx:14-18 | 70 is green, 69 and 40 amber, 39 red |

## Left out

- Logging with `console.error` (the catch blocks and the missing-key branch) is not modelled; it changes no response and no table.
- JSON numbers are integers. Fractional and very large scores, `NaN` and the ring geometry (`Math.PI`, circumference, offset) are floating point and not modelled.
- GeminiApi.Repaired: on an array the repair does assign the property. The model drops it, because a JSON value has no place for it. On the server `JSON.stringify` drops it too; on the client the property stays on the array object, so the header there would show 50 rather than `null` for such an answer.
- The exact text of engine `TypeError`s (destructuring `null`, reading a property of `null`, assigning to a primitive) is one constant.
- The `process-message` catch block reads `error.message`. For a thrown `null` that read would itself throw; the model treats every non-`Error` thrown value alike, as `{}`.
- Strings are sequences of code points. JavaScript's UTF-16 code units, surrogate pairs and the `substring` split inside a pair are not modelled. Canonicalize is modelled on ASCII only, which decides every match here, because all phrases are ASCII.
- The Gemini call, the prompts and system instructions, `response.text.trim()`, `JSON.parse`, `fetch`, `req.json()`, `createClient` and the Supabase inserts are outcomes supplied by the caller. Whatever the model writes depends on the language model, not on the code.
- Schema field descriptions are prompt text and are not modelled.
- CORS headers and the `Content-Type` header are not modelled.
- Timers (`setInterval` speed), `scrollIntoView` and rendering are not modelled. `Date.now()` is a parameter, and ids built from it are not assumed unique.
- React batching is not modelled. A send is split at its one `await` into `BeginSend` and `Settle`, so a new session may start in between; other interleavings are not modelled.
- App.Session.Settle: the `"An unknown error occurred."` fallback at App.tsx:92 is not modelled, because `getAegisResponse` only ever rejects with an `Error`.
- TypingEffect.TypingEffect.Restart: the effect also re-runs when the `onComplete` or `speed` props change identity; the model restarts only when called.
- Behaviour that no code implements is not modelled: stripping a PRIVATE-mode summary, clamping the score in `process-message`, swallowing a failed summary insert, and request timeouts.
