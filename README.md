# Math problem sessions: scoring, payload cleanup and submission flow

A Dafny model of the logic of a small web application. The application
generates arithmetic word problems for primary-school students and records
their answers.

- `app/page.tsx` is the page. It keeps the running score in the browser and
  scores each answer by difficulty, correctness and hint use. It draws a
  clamped progress bar, and it resets and guards per-problem flags: the hint
  latch, the grading, the answer and the feedback.
- `app/api/math-problem/route.ts` creates a problem. It resolves the requested
  difficulty and topic, strips Markdown code fences from the generated text,
  validates the parsed object, inserts a session row and shapes the response.
- `app/api/math-problem/submit/route.ts` grades an answer. It checks the
  request, looks up the session, compares answers with exact equality, appends
  one submission row and replies.

Files:

- `js_values.dfy` (module `JsValues`) models the JavaScript values the code
  works on. Numbers can be NaN or infinite. It also defines truthiness, strict
  equality, property reads, and the white space of `trim` and `\s`.
- `problem_route.dfy` (module `ProblemRoute`) models the problem handler as
  pure functions. `Prepare` decides the row to insert and `Respond` shapes
  the reply.
- `submit_route.dfy` (module `SubmitRoute`) holds the pure specification
  `Submit` of one submission request. Class `Tables` holds the sessions map
  and the submissions sequence. Its methods `CreateSession` and `SubmitAnswer`
  apply the two handlers to the tables and are proved against `Prepare`,
  `Respond` and `Submit`.
- `home_page.dfy` (module `HomePage`) holds the scoring rule `Delta`, the
  progress clamp `Percent`, and class `Home` with the page's state and
  handlers.

Outside inputs are parameters:

- `JSON.parse` is a parameter `parse: string -> Option<Value>`, where `None`
  means it throws.
- `parseFloat` is a parameter `Value -> Option<Num>`, where `None` means the
  conversion of its argument to a string throws.
- The text from the generative service is an `Option<string>`, where `None`
  means the call throws.
- Each database call's error answer is a boolean. The id of a new session is
  a parameter.
- On the page, each `fetch` is replaced by the handler's reply, or `None`
  when the fetch throws.

The model follows the code as written:

- A session can have any number of submissions.
- Correctness is exact `===` with no tolerance.
- A failed feedback call ends in a 500 reply with nothing stored. There is no
  fallback feedback text.
- The score lives only on the page.
- Difficulty and topic are free strings. An unknown difficulty scores like a
  wrong answer.

Two behaviours of the code are visible in the contracts:

- The problem handler answers 500 when a truthy `difficulty` or
  `problem_type` is not a string, because the prompt calls `toUpperCase()` on
  it (`NonStringSettingFails`).
- When generating a new problem fails, the page clears the grading and the
  hint latch but keeps the previous problem and its session
  (`Home.GenerateProblem`). So the same session can be answered and scored
  again.

## Model

| member | source | states |
|---|---|---|
| `JsValues.StrictEqualsIsExact` | app/api/math-problem/submit/route.ts:33 | `===` on numbers is exact equality with NaN equal to nothing; it is symmetric |
| `JsValues.Truthy` | app/api/math-problem/route.ts:68 | only a present, non-null value can be truthy; arrays and objects always are; a string is truthy iff it is non-empty |
| `ProblemRoute.TrimStart` | app/api/math-problem/route.ts:61 | the front part of `trim` never lengthens the text, and its result does not begin with white space |
| `ProblemRoute.TrimEnd` | app/api/math-problem/route.ts:61 | the back part of `trim` never lengthens the text, and its result does not end with white space |
| `ProblemRoute.Trim` | app/api/math-problem/route.ts:61 | `trim` never lengthens the text, and its result neither begins nor ends with white space |
| `ProblemRoute.TrimStartSpec` | app/api/math-problem/route.ts:61 | the start of `trim` returns a suffix; every character it drops is white space, and the result does not begin with white space |
| `ProblemRoute.TrimEndSpec` | app/api/math-problem/route.ts:61 | the end of `trim` returns a prefix; every character it drops is white space, and the result does not end with white space |
| `ProblemRoute.TrimSpec` | app/api/math-problem/route.ts:61 | `trim` keeps a contiguous slice with no white space at either end, and drops only white space on both sides |
| `ProblemRoute.TrimKeeps` | app/api/math-problem/route.ts:61 | a string with no white space at its ends is unchanged by `trim` |
| `ProblemRoute.StripAll` | app/api/math-problem/route.ts:62 | a global replace of a literal followed by `\s*` never lengthens the text |
| `ProblemRoute.StripAllSkipsPlain` | app/api/math-problem/route.ts:62 | a global replace of a pattern starting with a backtick leaves a backtick-free prefix untouched and works only on the rest |
| `ProblemRoute.StripAllPlain` | app/api/math-problem/route.ts:62 | a global replace of a pattern starting with a backtick does nothing to backtick-free text |
| `ProblemRoute.OpeningFenceRemoved` | app/api/math-problem/route.ts:62 | a leading "```json" is removed together with all the white space after it |
| `ProblemRoute.ClosingFenceRemoved` | app/api/math-problem/route.ts:62 | a closing "```" is removed by the second replace |
| `ProblemRoute.TicksKeptByJsonFence` | app/api/math-problem/route.ts:62 | the first replace does not touch a run of one, two or three backticks |
| `ProblemRoute.Clean` | app/api/math-problem/route.ts:61-62 | the cleanup (trim, then the two replaces) never lengthens the text |
| `ProblemRoute.CleanPlainText` | app/api/math-problem/route.ts:61-62 | text without backticks comes out of the cleanup merely trimmed |
| `ProblemRoute.CleanFencedPayload` | app/api/math-problem/route.ts:61-62 | for a trimmed, backtick-free p, cleaning "```json\n" + p + "\n```" gives p + "\n"; for an empty p it gives "" |
| `ProblemRoute.Setting` | app/api/math-problem/route.ts:10-11 | a missing or falsy setting resolves to the default; a truthy one is kept when it is a string and fails otherwise (the prompt's `toUpperCase()`); the result is never empty |
| `ProblemRoute.Validate` | app/api/math-problem/route.ts:67-72 | a payload is accepted iff it is an object with a truthy `problem_text` and a `final_answer` of type number; the accepted fields are exactly those of the object |
| `ProblemRoute.StringAnswerRejected` | app/api/math-problem/route.ts:67-72 | a `final_answer` of "5" (a string) is rejected |
| `ProblemRoute.EmptyTextRejected` | app/api/math-problem/route.ts:67-72 | an empty `problem_text` is rejected whatever the answer |
| `ProblemRoute.Body` | app/api/math-problem/route.ts:9 | a body that is not JSON becomes `{}`; a parsed body is passed on unchanged, so the body is null only when the request is the JSON text `null` |
| `ProblemRoute.Prepare` | app/api/math-problem/route.ts:8-80 | a row is planned for insertion only when the body is not null, the generative call returned text, that text parses after cleanup, and the payload validates |
| `ProblemRoute.Respond` | app/api/math-problem/route.ts:84-106 | the reply fails with 500 iff the plan aborted or the insert failed; otherwise it carries the new id, the stored problem text and answer, the resolved settings, and the hint and solution steps unchanged |
| `ProblemRoute.DefaultsApplied` | app/api/math-problem/route.ts:9-11 | a body that is not JSON, or has falsy `difficulty` and `problem_type`, resolves to "medium" and "mixed" |
| `ProblemRoute.NonStringSettingFails` | app/api/math-problem/route.ts:36-42 | a truthy non-string `difficulty` or `problem_type` aborts the request |
| `ProblemRoute.RejectedPayloadNotInserted` | app/api/math-problem/route.ts:64-72 | a payload that does not parse or does not validate is not inserted, and the reply is `success:false` with status 500 |
| `ProblemRoute.AcceptedPayloadInserted` | app/api/math-problem/route.ts:9-98 | for any request whose body is not null (a non-JSON body counting as `{}`) and whose settings are strings or falsy, an accepted payload inserts a row with its `problem_text` and `final_answer`; the reply echoes the resolved settings and passes `hint` and `solution_steps` through, absent or not |
| `SubmitRoute.Submit` | app/api/math-problem/submit/route.ts:9-92 | the reply is a success iff a row is appended; the appended row refers to a stored session, carries the grading and feedback of the reply, and the reply carries that session's stored answer; every failure, including a throwing `parseFloat`, has status 400, 404 or 500 |
| `SubmitRoute.KeyOf` | app/api/math-problem/submit/route.ts:22 | only a string `session_id` can match a session id, and it matches as that string |
| `SubmitRoute.MissingFieldsRejected` | app/api/math-problem/submit/route.ts:11-16 | a falsy `session_id` or an undefined `user_answer` gets 400, with no row appended, whatever the tables and services |
| `SubmitRoute.UnknownSessionRejected` | app/api/math-problem/submit/route.ts:19-30 | for any object body whose `session_id` is a non-empty string and which has a `user_answer`, whatever other keys it holds: an unknown id, or a lookup error, gets 404 with no row appended |
| `SubmitRoute.SubmissionRecorded` | app/api/math-problem/submit/route.ts:33-85 | for any object body naming a stored session by a non-empty string and carrying a `user_answer` that `parseFloat` accepts, whatever other keys it holds: exactly one row is appended; it holds the id, the parsed answer, the exact-equality grading and the feedback, and the reply repeats the grading and the feedback with the stored answer |
| `SubmitRoute.NaNNeverCorrect` | app/api/math-problem/submit/route.ts:33 | an answer that parses to NaN is never graded correct |
| `SubmitRoute.UnconvertibleAnswerIs500` | app/api/math-problem/submit/route.ts:33 | on a stored session, a `user_answer` whose conversion to a string throws inside `parseFloat` gets 500 with no row appended |
| `SubmitRoute.UnreadableBodyIs500` | app/api/math-problem/submit/route.ts:86-92 | a body that is not JSON, or is null, gets 500 with no row appended |
| `SubmitRoute.ServiceFailureIs500` | app/api/math-problem/submit/route.ts:60-78 | for any object body naming a stored session and carrying a `user_answer`, whatever other keys it holds: a failed feedback call or a failed insert gets 500 with no row appended |
| `SubmitRoute.CreatedSessionGradesFinalAnswer` | app/api/math-problem/submit/route.ts:33 | a session created from an accepted problem grades an answer equal to its final answer as correct |
| `SubmitRoute.FilterAppend` | app/api/math-problem/submit/route.ts:65-74 | an appended row joins the rows of its own session and of no other |
| `SubmitRoute.RepeatSubmissionAppends` | app/api/math-problem/submit/route.ts:19-85 | the same request handled twice, each call with its own feedback text and insert outcome: each reply is the one `Submit` gives for that call, the table grows by exactly the rows the two calls append, and when both append, the two rows and replies share the session, the parsed answer, the grading and the stored answer, and the session gains both rows, since earlier rows are not checked |
| `SubmitRoute.Tables.CreateSession` | app/api/math-problem/route.ts:74-99 | the reply is the one `Respond` gives; the sessions map gains exactly the planned row under the new id when the plan and the insert succeed, and is unchanged otherwise; submissions are untouched |
| `SubmitRoute.Tables.SubmitAnswer` | app/api/math-problem/submit/route.ts:7-93 | the reply is the one `Submit` gives; the submissions table gains exactly the row `Submit` appends and nothing else; sessions are untouched; every submission refers to an existing session |
| `HomePage.Delta` | app/page.tsx:60-73 | the score change lies in [-1, 3], at most 2 when the hint was used, and at most 0 for a wrong answer |
| `HomePage.CorrectAnswerScores` | app/page.tsx:66-70 | correct answers score easy 1, medium 2, hard 3 without a hint, and 0, 1, 2 with one |
| `HomePage.HintCostsOnePoint` | app/page.tsx:70 | with the hint, a correct answer scores exactly one less at every level |
| `HomePage.WrongAnswerScores` | app/page.tsx:71-73 | a wrong answer scores 0 without a hint and -1 with one, at every level |
| `HomePage.UnknownLevelScores` | app/page.tsx:65-73 | an unrecognised level scores 0, or -1 with the hint, correct or not |
| `HomePage.Total` | app/page.tsx:74-76 | after n scored answers, as repeated `updateScore` calls leave it, the total lies within [start - n, start + 3n] |
| `HomePage.NoHintNeverLoses` | app/page.tsx:71-73 | answers given without hints never lower the total |
| `HomePage.Percent` | app/page.tsx:197-202 | the progress is within [0, 100]: 0 at or below zero, 100 from the target of 20 up, and exactly total/20 of 100 in between |
| `HomePage.PercentMonotone` | app/page.tsx:199-202 | a higher score never shows less progress |
| `HomePage.SelectionsReachHandler` | app/page.tsx:109-113 | for every valid page state, the request it sends makes the handler plan an insert exactly when the generated text parses and validates, and then with the page's own difficulty and topic, never a default |
| `HomePage.Home.CanSubmit` | app/page.tsx:529 | the submit button is enabled only with a non-empty answer in an editable field |
| `HomePage.Home.AnswerEditable` | app/page.tsx:524 | in a valid state, a locked answer field means the answer was graded against a session |
| `HomePage.Home.constructor` | app/page.tsx:28-48 | the initial state: no problem or session, empty answer and feedback, difficulty "medium", topic "addition", score 0, all flags off |
| `HomePage.Home.GenerateRequest` | app/page.tsx:109-113 | in a valid state, the handler reads from the posted body exactly the selected difficulty and topic |
| `HomePage.Home.SelectDifficulty` | app/page.tsx:350 | selects one of the three offered levels |
| `HomePage.Home.SelectProblemType` | app/page.tsx:375 | selects one of the five offered topics |
| `HomePage.Home.UpdateScore` | app/page.tsx:60-77 | the new total is the old total plus `Delta`, and nothing else changes |
| `HomePage.Home.ResetScore` | app/page.tsx:79-82 | the total is 0 afterwards, and nothing else changes |
| `HomePage.Home.SetAnswer` | app/page.tsx:520 | the answer field holds the typed text |
| `HomePage.Home.ToggleHint` | app/page.tsx:483-486 | the hint visibility flips; the hint latch becomes set on the first opening and is never cleared here; an open hint is always charged |
| `HomePage.Home.ToggleSolution` | app/page.tsx:652 | the solution visibility flips |
| `HomePage.Home.GenerateProblem` | app/page.tsx:94-127 | the answer, grading, hint, solution and latch are cleared whatever the reply; a success installs the new problem and session; a failure keeps the old ones and shows the failure or error message |
| `HomePage.Home.ScoringLevel` | app/page.tsx:149 | the level used for scoring is the problem's difficulty when present and non-empty, and "medium" otherwise |
| `HomePage.Home.SubmitAnswer` | app/page.tsx:129-164 | without a session id (none, or the empty string) or with an empty answer nothing changes; a success records the grading and feedback, locks the form, and adds `Delta` for the latched hint to the score; a failure shows its message and leaves the score alone |

## Left out

- `app/api/history/route.ts`: its ordering and limit are done by the database query builder, so it has no logic of its own to model.
- The prompt texts sent to the generative service are free text. The model keeps only the `toUpperCase()` calls, because they can throw.
- `JSON.parse` and `parseFloat` are abstract parameters. Their grammars, and the string conversion that `parseFloat` applies to a non-string argument, are not modelled; that conversion is only seen succeeding or throwing.
- Floating-point arithmetic is not modelled. Finite numbers are exact reals.
- `HomePage.Percent`: the value `total / 20 * 100` is taken as exactly `5 * total`. The floating-point rounding before `Math.round` is not modelled.
- Storing NaN or an infinity in a numeric column is not modelled. The submissions table stores the parsed answer as it is.
- Sessions are looked up by string id. A `session_id` of another type never finds a session.
- Only objects have the properties the handlers read. JavaScript's built-in properties are not modelled.
- The page's `localStorage` load and save (`loadScore`, and the writes in `updateScore` and `resetScore`) are left out. So are `fetchHistory`, the confetti timer and `Math.random`, and all rendering.
- Requests are modelled as atomic. Interleavings of concurrent requests are not modelled, and `isLoading` is only seen set back to false at the end of a handler.
- The database assigns session ids and creation times. The model takes the new id as a parameter and does not model timestamps.
