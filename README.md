# Educational client: page logic, API gateway and route guard

This project models the logic of a React client for an AI-assisted learning
service, taken out of its JSX. It covers seven pages, the API gateway and the
application shell.

- **Quiz taking.** A question cursor and one answer slot per question. The
  cursor moves by next, previous and jump. Submitting asks for confirmation
  while any question is unanswered.
- **Registration.** A nested form edited through named inputs (`learningProfile.currentLevel`)
  and chip toggles. Password checks run in a fixed order before the form goes
  to the session store.
- **Profile.** A form projected from the signed-in user's record, with
  defaults. Edits are allowed only in edit mode. Save goes to the session
  store; cancel returns to the projection.
- **Quiz results.** Score classifiers (colour, message, distribution band,
  recommendation), the rounded accuracy rate, the stand-in results record and
  the loading gate.
- **Quiz generator.** The quiz list with "first two, then +n more" gap chips,
  and the generation dialog with its guard, prepend, reset and navigation.
- **Translation tools.** Three translators with blank-input guards and a
  loading flag. The swap of languages and texts. Question drafts that are
  edited in place, so they are objects.
- **Learning assistant.** Session start and end, and a transcript that grows
  by one question and one answer per send.
- **API gateway.** The base address, the bearer-token request interceptor
  (section 2.1 of RFC 6750), the 401 Unauthorized response interceptor
  (section 15.5.2 of RFC 9110) and the endpoint wrappers.
- **Application shell.** `ProtectedRoute`, the root redirect, Navbar
  visibility and the route table.

Every page is a `class` whose fields are the page's React state. Every
handler is a `method` with a `modifies` clause and a contract that states
what it changes and what it leaves alone. Every backend call the handler awaits is a parameter:
`Reply<T>` is a response body or a rejection. Every session-store result is
an `AuthResult`: success, refusal with an optional message, or an exception.

The backend calls a page makes are logged in a field (`requested`,
`submitted`, `chatRequests`, …) as the `Api.Call` values the endpoint
wrappers build, so a page's contract names the endpoint it reaches. The last `navigate(...)` target is a field too. This makes
"nothing is sent" and "the user moves to …" statable.

Pure computations are functions with lemmas about them. JavaScript's `trim`,
`split`, `join`, `length` and `||` are written out in modules `Text` and
`Outcomes`. The toggle idiom `includes ? filter : [...list, x]` lives in
`Selection`, and the dotted-name convention in `FormFields`. `getDifficultyColor`
is written out identically in two pages and `getScoreColor` in two pages; each
is defined once, in `Display`.

Behaviours of the code, as written, that the model keeps:

- After a successful generation, the quiz generator puts the whole reply body
  at the front of its list, not the quiz inside it. `QuizGenerator.Card`
  records this with the `JustGenerated` case.
- The learning-gaps and learning-objectives text areas show `list.join('\n')`
  and re-parse their value into non-blank lines on every change. A line feed
  typed at the end of such a text area is therefore lost at once, and a second
  line cannot be started there (`Text.TrailingLineFeedDropped`).
- The registration and profile forms read `name.split('.')` and keep only the
  first two pieces, so a deeper dotted name is cut after its second piece.

## Model

| member | source | states |
|---|---|---|
| Outcomes.OrString | src/pages/Profile.js:44-50 | `v \|\| d` on a possibly missing string: the value when present and non-empty, the fallback otherwise |
| Text.BlankIffAllWhitespace | src/pages/TranslationTools.js:65 | `!s.trim()` holds exactly when every character is ECMAScript whitespace or a line terminator |
| Text.Utf16Length | src/pages/Register.js:124 | `password.length` counts UTF-16 code units: between one and two per character |
| Text.Split | src/pages/QuizGenerator.js:425 | `split('\n')` gives at least one piece, none containing the separator, and two or more exactly when the separator occurs |
| Text.JoinSplit | src/pages/QuizGenerator.js:421-425 | joining the pieces of a split gives the text back |
| Text.SplitJoin | src/pages/QuizGenerator.js:421-425 | splitting separator-free pieces joined by the separator gives the pieces back |
| Text.NonBlank | src/pages/QuizGenerator.js:425 | `filter(line => line.trim())` keeps exactly the non-blank lines, each of them non-blank |
| Text.NonBlankLines | src/pages/QuizGenerator.js:425 | every parsed gap is non-blank and holds no line feed, and every non-blank line of the text is kept |
| Text.NonBlankKeepsAll | src/pages/QuizGenerator.js:425 | the filter keeps a list of non-blank lines whole |
| Text.LinesRoundTrip | src/pages/QuizGenerator.js:421-425 | the text area shows `join('\n')` of a parsed list; re-parsing that text gives the same list |
| Text.TrailingLineFeedDropped | src/pages/QuizGenerator.js:421-425 | a line feed typed at the end of the text area parses to the list it was typed after, so it disappears |
| Selection.Without | src/pages/Register.js:88 | `filter(s => s !== x)` leaves no `x` and never grows the list |
| Selection.WithoutCounts | src/pages/Register.js:88 | the filter drops every copy of `x` and keeps every other item with its multiplicity |
| Selection.WithoutAbsent | src/pages/Register.js:88 | filtering out an absent item changes nothing |
| Selection.WithoutAppend | src/pages/Register.js:88 | the filter distributes over concatenation, so the survivors keep their order |
| Selection.Toggle | src/pages/Register.js:85-89 | after a click the item is in the list exactly when it was not; if present, every copy is removed and the rest kept; if absent, it is appended at the end |
| Selection.ToggleTwiceAbsent | src/pages/Register.js:85-113 | two clicks on an unselected chip restore the list exactly |
| Selection.TogglePreservesNoDuplicates | src/pages/Register.js:85-113 | a toggle never introduces a duplicate into a duplicate-free list |
| Selection.WithoutNoDuplicates | src/pages/Register.js:88 | filtering keeps a list duplicate-free |
| FormFields.ParseName | src/pages/Register.js:68-69 | a name with a dot addresses a nested field, given by its first two dot-free pieces; any other name is a top-level key |
| FormFields.ParseDottedName | src/pages/Register.js:68-69 | `parent + "." + child` of dot-free parts is read back as exactly that nested field |
| Display.DifficultyColor | src/pages/QuizTaking.js:107-118 | easy, medium and hard map to success, warning and error (iff each), anything else to default; the same function as src/pages/QuizGenerator.js:125-136 |
| Display.ScoreColor | src/pages/QuizResults.js:79-83 | success iff score >= 80, warning iff 60..79, error iff below 60; the same function as src/pages/QuizGenerator.js:138-142 |
| Display.ScoreColorMonotone | src/pages/QuizResults.js:79-83 | a higher score never gets a worse colour |
| QuizResults.ScoreMessage | src/pages/QuizResults.js:85-91 | each of the five messages iff the score is in its band (>= 90, 80..89, 70..79, 60..69, below 60) |
| QuizResults.ScoreMessageMonotone | src/pages/QuizResults.js:85-91 | a higher score never gets a cooler message |
| QuizResults.MessageAgreesWithColor | src/pages/QuizResults.js:79-91 | the banner colour and message agree: success with the top two messages, warning with the middle two, error with the last |
| QuizResults.ScoreBand | src/pages/QuizResults.js:296-298 | Excellent iff >= 80, Good iff 60..79, Fair iff 40..59, Needs Improvement iff below 40 |
| QuizResults.BandAgreesWithColor | src/pages/QuizResults.js:296-298 | the band shares the colour's thresholds and only splits the error range at 40 |
| QuizResults.ShowsImprovementTips | src/pages/QuizResults.js:327 | improvement tips iff the message is one of the two lowest, which is iff score < 70 |
| QuizResults.Accuracy | src/pages/QuizResults.js:316 | 0 without questions; otherwise the integer nearest to 100·correct/total, a tie going up, and within 0..100 for a consistent record |
| QuizResults.Fallback | src/pages/QuizResults.js:66-71 | the stand-in record: the quiz score or 0, the question count or 0, no correct answers, no per-question results |
| QuizResults.FallbackAccuracyIsZero | src/pages/QuizResults.js:66-71 | a stand-in record always shows 0 % accuracy |
| QuizResults.ResultsPage.Mount | src/pages/QuizResults.js:38-47 | handed-over results are kept and only the quiz is fetched, otherwise the stand-in is built; loading ends false, and the content shows iff the quiz fetch succeeded |
| QuizResults.ResultsPage.LoadQuiz | src/pages/QuizResults.js:49-58 | the quiz is stored on success, kept on failure; loading ends false |
| QuizResults.ResultsPage.LoadResults | src/pages/QuizResults.js:60-77 | on success the quiz and its stand-in results are stored; loading ends false |
| QuizTaking.Unanswered | src/pages/QuizTaking.js:76 | the null count is at most the slot count, and 0 iff every slot holds an answer |
| QuizTaking.Answered | src/pages/QuizTaking.js:138 | the answered count is at most the slot count |
| QuizTaking.AnsweredPlusUnanswered | src/pages/QuizTaking.js:138 | answered plus unanswered is the number of questions |
| QuizTaking.SelectLowersUnanswered | src/pages/QuizTaking.js:56-60 | a selection lowers the unanswered count by one on an empty slot, by nothing otherwise |
| QuizTaking.AllUnanswered | src/pages/QuizTaking.js:46 | all slots empty means all unanswered |
| QuizTaking.NoAnswers | src/pages/QuizTaking.js:46 | `new Array(n).fill(null)`: n slots, all of them unanswered |
| QuizTaking.QuizTakingPage.Mount | src/pages/QuizTaking.js:41-54 | on success the quiz is stored with one empty slot per question; on failure the user goes to `/quizzes`; the invariant holds |
| QuizTaking.QuizTakingPage.SelectAnswer | src/pages/QuizTaking.js:56-60 | slot q holds k; no other slot and not the slot count changes |
| QuizTaking.QuizTakingPage.Next | src/pages/QuizTaking.js:62-66 | one question on unless on the last; the cursor stays below the question count |
| QuizTaking.QuizTakingPage.Previous | src/pages/QuizTaking.js:68-72 | one question back unless on the first; never negative |
| QuizTaking.QuizTakingPage.JumpTo | src/pages/QuizTaking.js:240 | the cursor is the chosen question, and the invariant holds |
| QuizTaking.QuizTakingPage.SubmitQuiz | src/pages/QuizTaking.js:85-96 | the answers are posted as `{answers}`; success leads to `/quiz/<id>/results` with the results, failure changes nothing else |
| QuizTaking.QuizTakingPage.Submit | src/pages/QuizTaking.js:74-83 | with any slot empty the dialog opens with the unanswered count and nothing is sent; otherwise the quiz is submitted through the submit endpoint, and on success the user moves to `/quiz/<id>/results` with the results handed over, while a failure keeps the previous target and results |
| QuizTaking.QuizTakingPage.ConfirmSubmit | src/pages/QuizTaking.js:98-101 | the dialog closes with count 0 and the answers are submitted; on success the user moves to `/quiz/<id>/results` with the results handed over, a failure keeps the previous target and results |
| QuizTaking.QuizTakingPage.CancelSubmit | src/pages/QuizTaking.js:103-105 | the dialog closes with count 0 and nothing is sent |
| Register.Change | src/pages/Register.js:66-83 | the addressed text value becomes the new value; every other text value and both chip lists are unchanged |
| Register.ProfileName | src/pages/Register.js:68-69 | `learningProfile.<child>` is read as the nested field `child` |
| Register.NestedNameReachesField | src/pages/Register.js:66-76 | the two selects write exactly their nested field; another child name changes nothing |
| Register.ValidationError | src/pages/Register.js:119-127 | a mismatch is reported first, then a password under 6 UTF-16 units; no error iff both checks pass |
| Register.LengthCheckBounds | src/pages/Register.js:124 | supporting lemma for the password rule: six characters always pass the length check, fewer than three always fail it |
| Register.RegisterPage.constructor | src/pages/Register.js:22-35 | the initial form (level beginner, language en), no error, not loading |
| Register.RegisterPage.HandleChange | src/pages/Register.js:66-83 | the form becomes `Change` of the old form |
| Register.RegisterPage.HandleSubjectChange | src/pages/Register.js:85-98 | only the subject list changes, by a toggle |
| Register.RegisterPage.HandleGoalChange | src/pages/Register.js:100-113 | only the goal list changes, by a toggle |
| Register.RegisterPage.HandleSubmit | src/pages/Register.js:115-143 | a failed check shows its message and registers nothing; otherwise the form is registered, success goes to `/dashboard`, a refusal shows the store's message, an exception the generic one; loading ends false |
| Profile.FormFromUser | src/pages/Profile.js:41-56 | the projection with defaults; its level and language are never empty |
| Profile.EmptyUserGivesInitialForm | src/pages/Profile.js:28-56 | an empty user record projects to the page's initial form |
| Profile.ProjectionRoundTrip | src/pages/Profile.js:41-56 | projecting a record that carries a form gives that form back iff its level and language are non-empty |
| Profile.Change | src/pages/Profile.js:84-101 | the addressed text value becomes the new value; every other text value and all four chip lists are unchanged |
| Profile.ToggleIn | src/pages/Profile.js:103-161 | one list is toggled; the other three lists and every text value are unchanged |
| Profile.FormDeterminedByFields | src/pages/Profile.js:28-39 | the four text values and four lists make up the whole form |
| Profile.ToggleTwiceRestores | src/pages/Profile.js:103-161 | two clicks on an unselected chip restore the whole form |
| Profile.LanguageLabel | src/pages/Profile.js:300-304 | es, fr and de by name, anything else (missing too) as English |
| Profile.LabelAgreesWithMenu | src/pages/Profile.js:369-372 | supporting lemma for the language select: the summary caption of every offered language is the select's own caption |
| Profile.ProfilePage.Mount | src/pages/Profile.js:41-56 | out of edit mode, no banner, the form projected from the user record when there is one |
| Profile.ProfilePage.UserChanged | src/pages/Profile.js:41-56 | a new record re-projects the form; a missing one leaves it |
| Profile.ProfilePage.StartEdit | src/pages/Profile.js:253 | edit mode starts |
| Profile.ProfilePage.HandleChange | src/pages/Profile.js:84-101 | the form becomes `Change` of the old form |
| Profile.ProfilePage.ClickChip | src/pages/Profile.js:387 | a chip toggles its list in edit mode and does nothing outside it |
| Profile.ProfilePage.Save | src/pages/Profile.js:163-180 | the form is sent; success shows the success banner and leaves edit mode, a refusal keeps edit mode with the store's message or the default, an exception the generic message; loading ends false |
| Profile.ProfilePage.Cancel | src/pages/Profile.js:182-200 | the form returns to the same projection as on mount, edit mode ends, the banner clears |
| QuizGenerator.GapChips | src/pages/QuizGenerator.js:304-319 | at most two leading gaps are shown; the "+n more" chip appears iff there are more than two, and shown plus counted is every gap |
| QuizGenerator.ChipsCoverGaps | src/pages/QuizGenerator.js:304-319 | the shown chips followed by the counted gaps are exactly the list |
| QuizGenerator.QuizGeneratorPage.Mount | src/pages/QuizGenerator.js:73-86 | list and analytics are stored only when both fetches succeed; loading ends false |
| QuizGenerator.QuizGeneratorPage.SetDialog | src/pages/QuizGenerator.js:357 | the dialog opens or closes, nothing else changes |
| QuizGenerator.QuizGeneratorPage.ChangeSubject | src/pages/QuizGenerator.js:369-374 | a new subject always clears the topic |
| QuizGenerator.QuizGeneratorPage.ChangeTopic | src/pages/QuizGenerator.js:390-392 | only the topic changes |
| QuizGenerator.QuizGeneratorPage.ChangeDifficulty | src/pages/QuizGenerator.js:407-409 | only the difficulty changes |
| QuizGenerator.QuizGeneratorPage.ChangeGapsText | src/pages/QuizGenerator.js:421-427 | the gaps are the non-blank lines of the text, each non-blank |
| QuizGenerator.QuizGeneratorPage.GenerateQuiz | src/pages/QuizGenerator.js:88-115 | without subject and topic nothing is sent, otherwise the form goes to the generate endpoint; on success the reply goes to the front with the old cards after it in order, the dialog closes, the form resets and the user moves to `/quiz/<id>`; on failure nothing else changes; generating ends false |
| TranslationTools.Swapped | src/pages/TranslationTools.js:152-160 | languages and texts trade places, loading stays |
| TranslationTools.SwapInvolution | src/pages/TranslationTools.js:152-160 | swapping twice restores the tab |
| TranslationTools.Apply | src/pages/TranslationTools.js:148 | exactly the named field of a draft is overwritten |
| TranslationTools.ApplyCurrentValue | src/pages/TranslationTools.js:148 | writing any field with the value it already holds leaves the draft as it was |
| TranslationTools.ApplyLastWriteWins | src/pages/TranslationTools.js:148 | a second write to the same field replaces the first |
| TranslationTools.QuestionDraft.Blank | src/pages/TranslationTools.js:136-141 | a blank draft: empty question, four empty options, answer 0, empty explanation |
| TranslationTools.QuestionDraft.Set | src/pages/TranslationTools.js:148 | the draft's contents become `Apply` of its old contents |
| TranslationTools.Values | src/pages/TranslationTools.js:115 | the sent list holds each draft's contents, in order |
| TranslationTools.OptionLetter | src/pages/TranslationTools.js:467 | option k is labelled by the k-th capital letter |
| TranslationTools.TranslationPage.Mount | src/pages/TranslationTools.js:55-62 | the language table on success, empty otherwise; all tabs at their initial values |
| TranslationTools.TranslationPage.Translate | src/pages/TranslationTools.js:64-84 | blank text sends nothing and changes nothing; otherwise the text and both languages go to the translate endpoint, a reply's translation is stored, a failure keeps the tab; loading ends false |
| TranslationTools.TranslationPage.SwapLanguages | src/pages/TranslationTools.js:152-160 | the tab becomes its swap |
| TranslationTools.TranslationPage.TranslateEducational | src/pages/TranslationTools.js:86-107 | blank content sends nothing and changes nothing; otherwise content, type and languages go to the educational-content endpoint, a reply's translation is stored, a failure keeps the tab; loading ends false |
| TranslationTools.TranslationPage.AddQuizQuestion | src/pages/TranslationTools.js:131-144 | one fresh blank draft at the end; the existing drafts are the same objects |
| TranslationTools.TranslationPage.UpdateQuizQuestion | src/pages/TranslationTools.js:146-150 | one field of draft i is overwritten in place; the list and every other draft are unchanged |
| TranslationTools.TranslationPage.EditOption | src/pages/TranslationTools.js:476-480 | option k of draft i is replaced through a copy of the options; nothing else changes |
| TranslationTools.TranslationPage.TranslateQuiz | src/pages/TranslationTools.js:109-129 | with no drafts nothing is sent; otherwise the drafts' contents and languages go to the quiz-translate endpoint, a reply's questions are stored, a failure keeps the previous ones; loading ends false |
| LearningAssistant.ConversationGrows | src/pages/LearningAssistant.js:105-137 | a transcript plus one user and one assistant message is again a transcript of alternating turns |
| LearningAssistant.AssistantPage.constructor | src/pages/LearningAssistant.js:23-32 | setup form shown, empty session data, nothing sent |
| LearningAssistant.AssistantPage.ChangeSubject | src/pages/LearningAssistant.js:189-194 | a new subject always clears the topic |
| LearningAssistant.AssistantPage.ChangeTopic | src/pages/LearningAssistant.js:210-212 | only the topic changes |
| LearningAssistant.AssistantPage.ChangeObjectivesText | src/pages/LearningAssistant.js:228-233 | the objectives are the non-blank lines of the text |
| LearningAssistant.AssistantPage.StartSession | src/pages/LearningAssistant.js:69-100 | without subject and topic nothing is sent, otherwise the setup goes to the session-start endpoint; success stores the session id, hides the setup and shows exactly the welcome message; failure stays on the setup form |
| LearningAssistant.AssistantPage.SendMessage | src/pages/LearningAssistant.js:102-141 | blank input changes nothing; otherwise the input goes to the chat endpoint with the session and setup and is cleared and exactly the user message and then the reply or the error notice are appended |
| LearningAssistant.AssistantPage.Exchange | src/pages/LearningAssistant.js:105-137 | the question is sent, the input cleared, and the transcript gains the question and then the answer |
| LearningAssistant.AssistantPage.KeyPress | src/pages/LearningAssistant.js:143-148 | Enter without Shift acts as the send button: on blank input nothing changes, otherwise the question goes to the chat endpoint, the input is cleared and exactly the question and then the reply or the error notice are appended; any other key changes nothing |
| LearningAssistant.AssistantPage.EndSession | src/pages/LearningAssistant.js:150-163 | a truthy session id is reported to its end-session endpoint; in every case session, transcript, setup form and session data are reset |
| Api.BaseUrl | src/services/api.js:5 | the configured address when set and non-empty, `http://localhost:5000` otherwise |
| Api.FixedRoutesDistinct | src/services/api.js:38-69 | the fifteen fixed-path wrappers have pairwise different method-and-path routes; the profile path is shared only by GET and PUT |
| Api.QuizRoutesAvoidFixed | src/services/api.js:56-60 | a quiz identifier without `/` never routes `getQuiz` to a fixed-path endpoint |
| Api.AnalyticsIdCollides | src/services/api.js:58-60 | identifiers are not escaped: `getQuiz('analytics/overview')` routes to the analytics endpoint |
| Api.IdentifierPaths | src/services/api.js:51-59 | the quiz path is the prefix plus the id, the submit path is the quiz path plus `/submit` with body `{answers}`, the end-session path is the prefix plus the id plus `/end` |
| Api.WithBearer | src/services/api.js:12-19 | a truthy token adds `Authorization: Bearer <token>`; otherwise the headers are unchanged |
| Api.BearerRoundTrip | src/services/api.js:14-17 | the credential read back from the header is the token; every other header is unchanged; without a token no credential is added |
| Api.AfterRejection | src/services/api.js:28-34 | a 401 drops the token and moves to `/login`; any other failure leaves both alone |
| Api.InvalidationIdempotent | src/services/api.js:29-32 | after a 401, further failures change nothing |
| Api.Gateway.constructor | src/services/api.js:4-9 | the client's base address, the stored token and the location |
| Api.Gateway.Prepare | src/services/api.js:12-19 | the request carries the call, the base address and the default headers with the bearer credential when a token is stored |
| Api.Gateway.Fulfilled | src/services/api.js:27 | a response passes unchanged |
| Api.Gateway.Rejected | src/services/api.js:28-34 | the error is rejected unchanged, a 401 included, after the environment update of `AfterRejection` |
| App.ProtectedRoute | src/App.js:80-88 | the placeholder while loading; afterwards the page iff signed in, the redirect to `/login` otherwise |
| App.RootElement | src/App.js:98-107 | Home iff not signed in, the redirect to `/dashboard` otherwise |
| App.NavbarVisible | src/App.js:96 | the navigation bar iff signed in |
| App.GuardedExactlyThePrivatePages | src/App.js:98-165 | exactly the home, login and register routes are unguarded |
| App.PrivatePagesNeedSignIn | src/App.js:80-165 | no route shows a private page unless loaded and signed in; while loading every private route shows the placeholder |
| App.PatternSegments | src/App.js:98-165 | each route's path pattern splits back into its segments |
| App.NavigationTargetsHaveRoutes | src/App.js:134-149 | `/quiz/<id>` is served by the quiz-taking route, and `/quiz/<id>/results` by the results route and not the quiz-taking one |

## Left out

- The session store (`AuthContext`: `register`, `updateProfile`, `isAuthenticated`, `loading`) is not part of this model. Its results are inputs.
- HTTP transport, axios and the ordering of concurrent requests (`Promise.all` in the quiz generator) are left out. Each awaited call is one `Reply` input.
- `alert`, `console.error`, scrolling to the newest message, and the rendering, styling and theme are left out. They change no state the handlers read.
- Message timestamps (`new Date()`) and date formatting are left out. They are clock reads.
- The floating-point progress bar of the quiz-taking page is left out.
- QuizResults.Accuracy: computed on exact rationals. `Math.round` of the floating-point `correct / total * 100` can differ at a tie that the floating-point product misses.
- Scores are integers. A non-integer score from the backend is not modelled.
- The quiz-taking page re-loads its quiz when `quizId` changes without resetting the cursor. Only the load on mount is modelled.
- The quiz-taking radio group shows `answers[i] || ''`, which shows answer 0 as unselected. This is a rendering quirk and is left out.
- Register.Change: an input name that addresses no text field of the form leaves the form unchanged. In JavaScript it would add or overwrite a property; the pages render no such input.
- Profile.Change: same as `Register.Change`.
- Register.RegisterPage.HandleSubmit: a refusal without a message is modelled as the empty banner (`undefined` renders nothing).
- TranslationTools.OptionLetter: defined for the first 26 options only. The page shows four.
- Path parameters are not URL-encoded. An identifier is inserted verbatim, as the source does.
- App.Matches: route matching is case-sensitive and does not treat a trailing slash specially. React Router's ranking of routes is not modelled.
- The home page, the dashboard and the navigation bar's menu are left out. They hold no logic beyond navigation calls and display slicing.
- The quiz generator's "take quiz" and "view results" buttons are left out. They only call `navigate` with `/quiz/<id>` and `/quiz/<id>/results`, and those paths are covered by `App.NavigationTargetsHaveRoutes`.
- The topic lists per subject (`topics[subject]`) are left out. A topic is any string.
- The text inputs and selects that only copy the typed value into state are left out: the assistant's `setInputMessage`, the text, language and content-type fields of the two translation tabs, and the quiz tab's language selects. Each is one field assignment; the handlers that read these fields take them as they stand.
- The endpoint wrappers `login`, `register`, `getProfile`, `updateProfile`, `getRecommendations` and `getSessions` are called only by the session store and the dashboard, which are not part of this model. They appear only in `Api.FixedRoutesDistinct`.
