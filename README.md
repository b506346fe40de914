# ENEM study guide: session store, score input and request lifecycle in Dafny

This project models the logic of a browser study assistant for the ENEM
exam that is not view code or a call to the remote text-generation API:

- **Credential store** (`services/authService.ts`): a list of user
  records `{username, email, password}` and one session slot, both kept in
  the browser's local storage. `register` rejects a duplicate email.
  Otherwise it appends a record and writes the session. `login` takes the
  first record whose email and password both match. `logout` removes the
  slot. `getCurrentUser` reads the slot and returns null when it is absent,
  empty or does not parse.
- **Score input** (`components/ScoreSimulator.tsx`): each keystroke is
  parsed with JavaScript's `parseInt(value, 10)`. The maximum is 1000 for
  the essay (`redacao`) and 45 for every other key. A value in range is
  stored, the empty string stores 0, and anything else is ignored. Input is
  rejected, never clamped. `parseInt` follows section 19.2.5 of ECMA-262,
  "parseInt ( string, radix )".
- **Request lifecycle** (`App.tsx`): each of the four features (tips,
  schedule, score, qa) has a loading flag, an error slot and a result slot.
  A handler is a `Begin` step followed by a `Complete` step.
- **Login form** (`components/LoginPage.tsx`) and **session routing**
  (`index.tsx`): the form checks for empty fields before it calls the
  store. `Main` restores the session at startup and shows the application
  exactly when there is a current user.

Files: `wrappers.dfy` (Option, Result), `auth_service.dfy`,
`parse_int.dfy`, `score_simulator.dfy`, `app.dfy`, `login_page.dfy`,
`index.dfy`. Each component that the source updates in place is a class.
Its methods have `modifies` clauses and state the whole new state.
`parseInt`, the choice of maximum and the score update are functions with
lemmas about them. Six client methods use only the contracts:
`AuthService.RegisterScenario` walks through a register, a duplicate
register, logout and a right and a wrong login;
`ScoreSimulator.RejectionScenario` has an out-of-range score ignored;
`App.ScheduleFailureScenario` has a schedule request succeed and then
fail, keeping the old schedule; `Index.RegisterThenShowApp` registers
through the login page into the application with the welcome modal, then
logs out; `Index.LoginThroughPage` types registered credentials into the
page and lands in the application; `Index.WelcomeModalSurvivesLogout`
shows the welcome modal surviving a logout.

Three facts of the code:
- Out-of-range score input is rejected and the stored value stays as it
  was. Non-numeric, non-empty input also leaves the value unchanged; it
  does not store 0.
- The storage keys are `enem_users` and `enem_current_user`.
- Every failure of the generation service ends in one fixed message per
  feature. There are no separate format and transport error kinds.

A behaviour of the code worth knowing: `handleLogout` does not reset
`showWelcomeModal`. If the modal is still open at logout, a later plain
login shows it again (`Index.Main.HandleLogin` keeps the old flag;
`Index.WelcomeModalSurvivesLogout` walks through it). While the modal is
open its full-screen overlay (components/WelcomeEmailModal.tsx:15-17)
covers the header, so only a keyboard user can reach the "Sair" button
before closing it.

## Model

| member | source | states |
|---|---|---|
| AuthService.SessionOf | services/authService.ts:33-47 | the session value keeps the record's username and email; the `User` type has no password field |
| AuthService.Message | services/authService.ts:24-52 | each rejection carries its own fixed, non-empty message |
| AuthService.FirstCredentialMatch | services/authService.ts:44 | the index of the first record matching both email and password; none exactly when no record matches |
| AuthService.FindByEmail | services/authService.ts:22 | the linear scan returns the first index holding the email, and none exactly when no record has it |
| AuthService.FindByCredentials | services/authService.ts:44 | the linear scan returns the first record matching email and password |
| AuthService.FirstMatchIsUnique | services/authService.ts:44 | a matching index with no match before it is the one `find` returns |
| AuthService.AppendKeepsEmailsDistinct | services/authService.ts:22-30 | appending a record with a new email keeps all emails pairwise distinct |
| AuthService.LoginFindsAppendedRecord | services/authService.ts:29-49 | a login with the email and password just registered finds the new record |
| AuthService.DistinctEmailsMatchIsUnique | services/authService.ts:44 | with distinct emails, any matching record is the one login returns |
| AuthService.CurrentUserOf | services/authService.ts:61-72 | a user is returned exactly when the slot holds a parseable user; absent, empty and corrupt slots give null |
| AuthService.AuthStore.constructor | services/authService.ts:21 | the store starts from whatever local storage holds |
| AuthService.AuthStore.Register | services/authService.ts:18-38 | a duplicate email rejects and changes neither the list nor the slot; otherwise exactly one record is appended, the session holds the user without password, that user is returned, and distinct emails stay distinct |
| AuthService.AuthStore.Login | services/authService.ts:40-55 | succeeds exactly when some record matches; stores and returns the first match without its password; a failure rejects and keeps the old session; the list is never written |
| AuthService.AuthStore.Logout | services/authService.ts:57-59 | the slot becomes absent, the list is untouched, and a second logout changes nothing |
| AuthService.AuthStore.GetCurrentUser | services/authService.ts:61-72 | reads the slot without writing; returns its user when it holds one, otherwise null |
| JsParseInt.TrimStart | components/ScoreSimulator.tsx:40 | after trimming, the text does not start with white space |
| JsParseInt.TrimStartRemovesWhiteSpace | components/ScoreSimulator.tsx:40 | trimming removes a prefix made of white space and keeps the rest |
| JsParseInt.DigitPrefixLength | components/ScoreSimulator.tsx:40 | the longest prefix made of decimal digits |
| JsParseInt.ParseSigned | components/ScoreSimulator.tsx:40 | after the white space: NaN exactly when no digit follows the optional sign; not negative without a minus, not positive with one |
| JsParseInt.ParseInt | components/ScoreSimulator.tsx:40 | `parseInt(value, 10)`: an integer only when a digit follows the white space and sign, negative only after a minus; ParseIntOfNumeral, ParseIntOfPadded, ParseSignedDigits and ParseIntNaN pin its value |
| JsParseInt.ParseDigits | components/ScoreSimulator.tsx:40 | NaN exactly when the text does not start with a digit, otherwise a non-negative value |
| JsParseInt.Decimal | components/ScoreSimulator.tsx:40 | the numeral of a number is a non-empty digit string without a leading zero |
| JsParseInt.DecimalRoundTrip | components/ScoreSimulator.tsx:40 | reading a numeral back gives the number |
| JsParseInt.DigitPrefixOfNumeral | components/ScoreSimulator.tsx:40 | the digit prefix of a numeral followed by a non-digit is the numeral |
| JsParseInt.TrimStartOfPadded | components/ScoreSimulator.tsx:40 | trimming white space in front of other text gives that text |
| JsParseInt.ParseIntOfPadded | components/ScoreSimulator.tsx:40 | leading white space does not change the result |
| JsParseInt.ParseSignedDigits | components/ScoreSimulator.tsx:40 | an optional sign, digits and a non-digit parse to the digits' value with that sign |
| JsParseInt.ParseIntOfNumeral | components/ScoreSimulator.tsx:40 | white space, an optional sign, a numeral and trailing text that does not start with a digit parse to the signed number, so "12abc" gives 12 |
| JsParseInt.ParseIntNaN | components/ScoreSimulator.tsx:40 | NaN exactly when no digit follows the white space and the optional sign |
| JsParseInt.ParseIntNonNegative | components/ScoreSimulator.tsx:40 | without a leading minus the result is not negative |
| ScoreSimulator.MaxFor | components/ScoreSimulator.tsx:41 | the maximum is 1000 exactly for 'redacao' and 45 for every other key |
| ScoreSimulator.InitialScores | components/ScoreSimulator.tsx:31-37 | the five initial scores (25, 25, 25, 25, 700) are within bounds |
| ScoreSimulator.ScoreChange | components/ScoreSimulator.tsx:39-47 | a `parseInt` result within `[0, max]` is stored under the key; any other non-empty text leaves the scores unchanged (no clamping); only the named key may change; in-bounds scores stay in bounds |
| ScoreSimulator.StoresNumeral | components/ScoreSimulator.tsx:40-43 | a numeral within bounds, with any non-digit text after it, is stored under the key |
| ScoreSimulator.RejectsAboveMaximum | components/ScoreSimulator.tsx:42-46 | a numeral above the maximum changes nothing and is not clamped |
| ScoreSimulator.RejectsNegative | components/ScoreSimulator.tsx:42-46 | a negative number changes nothing |
| ScoreSimulator.RejectsNaN | components/ScoreSimulator.tsx:42-46 | non-empty text that parses to NaN changes nothing |
| ScoreSimulator.EmptyStoresZero | components/ScoreSimulator.tsx:44-45 | the empty string stores 0 |
| ScoreSimulator.StoresDigitPrefix | components/ScoreSimulator.tsx:40-43 | "12abc" stores 12 under 'linguagens' |
| ScoreSimulator.IgnoresFifty | components/ScoreSimulator.tsx:41-46 | "50" leaves the scores unchanged for 'linguagens' |
| ScoreSimulator.ScoreForm.constructor | components/ScoreSimulator.tsx:31-37 | the form starts with the initial scores, within bounds |
| ScoreSimulator.ScoreForm.HandleScoreChange | components/ScoreSimulator.tsx:39-47 | the scores become the update of the old scores, and stay within bounds |
| ScoreSimulator.ScoreForm.HandleSubmit | components/ScoreSimulator.tsx:49-52 | the current scores are handed on unmodified and within bounds |
| App.PageTitlesDistinct | App.tsx:144-150 | each of the five views has its own title |
| App.PageTitle | App.tsx:144-150 | `pageTitleMap`: every view has a non-empty title |
| App.FailureMessagesDistinct | App.tsx:97-137 | `FailureMessage` gives each feature its own fixed failure notice, with different texts for different features |
| App.NoticeText | App.tsx:97-137 | each failure message is non-empty |
| App.AppState.Loading | App.tsx:205 | a feature that never started is passed loading = false |
| App.AppState.ErrorOf | App.tsx:207 | a feature that never started is passed error = null |
| App.AppState.ResultOf | App.tsx:206-239 | each feature's component receives its own result slot |
| App.AppState.constructor | App.tsx:76-85 | the view starts at the dashboard with no loading, no errors and empty results |
| App.AppState.SetActiveView | App.tsx:76 | the active view becomes the one chosen |
| App.AppState.Begin | App.tsx:87-90 | loading on and error cleared for that feature; tips and qa clear their result, schedule and score keep theirs; every other feature is untouched |
| App.AppState.Complete | App.tsx:92-100 | success stores the returned value; failure stores the feature's fixed message and keeps the previous result; loading ends either way; every other feature is untouched |
| App.AppState.StoreResult | App.tsx:94 | a returned value goes into its own feature's result slot and no other |
| LoginPage.FormData.With | components/LoginPage.tsx:25 | the named field takes the new value and the others keep theirs |
| LoginPage.MissingFields | components/LoginPage.tsx:34-43 | login mode fails exactly when the email or the password is empty; register mode fails exactly when any of the three is empty; each with its own message |
| LoginPage.DisplayedError | components/LoginPage.tsx:48 | the shown error is the thrown message, or 'Ocorreu um erro.' when that is empty |
| LoginPage.LoginPageState.constructor | components/LoginPage.tsx:15-22 | login mode, three empty fields, no error, not loading |
| LoginPage.LoginPageState.HandleChange | components/LoginPage.tsx:24-26 | only the field named by the input changes |
| LoginPage.LoginPageState.Toggle | components/LoginPage.tsx:136-139 | the mode flips and the error clears; the form data stays |
| LoginPage.LoginPageState.HandleSubmit | components/LoginPage.tsx:28-52 | `SubmitOutcome`: a failed field check shows its message and never reaches the store; otherwise login or register runs and its user is reported with the mode as source, or its rejection message is shown; success exactly when no error is shown; loading ends false; distinct emails stay distinct |
| Index.Main.constructor | index.tsx:13-15 | no user, loading, no welcome modal |
| Index.Main.Startup | index.tsx:26-28 | the current user becomes what the store restores, then loading ends |
| Index.Main.HandleLogin | index.tsx:31-36 | the user is set; the welcome modal opens only for a registration, and a login keeps the flag as it was |
| Index.Main.HandleLogout | index.tsx:38-41 | the store's slot is removed, then the user is cleared |
| Index.Main.CloseWelcomeModal | index.tsx:54 | the welcome modal flag becomes false |
| Index.Main.SubmitLoginPage | index.tsx:57 | the page and the store end as `SubmitOutcome` says (success exactly when the fields are filled and the store accepts: a first credential match on login, a new email on register; records unchanged on login, one appended on a successful register; loading ends); a success sets the user to the session the store now holds and opens the modal on registration; the shown user keeps agreeing with the store |
| Index.Main.Render | index.tsx:43-58 | nothing while loading; afterwards the application exactly when there is a current user, otherwise the login page |

## Left out

- services/geminiService.ts is not part of this model. It builds prompts for a remote generative API and parses the returned JSON. The API is a foreign library with nondeterministic output. Its results appear only as the `Outcome` parameter of `App.AppState.Complete`. The one-line `parsed.dicas || []` decode is not modelled.
- The 500 ms timers of `register` and `login` are not modelled: each is one synchronous step.
- The JSON encoding in local storage is abstracted: the user list is a sequence of records, and the session slot is absent, empty, a parseable user, or corrupt.
- A corrupt user list is not modelled: `JSON.parse` would throw inside the timer and the promise would never settle.
- AuthService.CurrentUserOf: JSON that parses but is not a user object is returned unchanged by the source; the model only distinguishes a user from unparseable text.
- JsParseInt.ParseInt: the result is an integer. Negative zero counts as zero, and the rounding of very long digit strings to a double is not modelled. Neither changes the range check, because rounding is monotone and the bounds are small integers.
- JsParseInt.IsStrWhiteSpace: JavaScript strings are UTF-16 code units and Dafny characters are code points; all the white space characters are in the Basic Multilingual Plane, so they agree.
- ScoreSimulator.ScoreChange: a subject outside the five form keys is added as a new key with maximum 45, as the object spread does. The form never passes one.
- App.AppState.Begin: overlapping requests for the same feature and async interleaving are not modelled. Each handler is `Begin` then `Complete`.
- App.AppState.Complete: the error slots hold the identity of the fixed failure message (`FailureNotice`). `NoticeText` gives the text the component shows.
- LoginPage.LoginPageState.HandleSubmit: the state during the awaited store call (error cleared, loading true) is not stated. The call is one synchronous step, so only the final state is visible.
- The rendering `switch` of `App`, the header, the sidebar open flag, markdown rendering and `buildYoutubeSearchUrl` are view code.
- Theme class toggling on the document and React mounting in index.tsx are not modelled.
- The view components `Sidebar`, `InfoCard`, `LoadingSpinner`, `WelcomeEmailModal`, `StudyTipsGenerator`, `QuickQuestion` and `ScheduleGenerator` are not modelled. The `trim()` guards of the last two are not modelled.
- Passwords are stored and compared in plain text, as the mock does. No security property is stated.
