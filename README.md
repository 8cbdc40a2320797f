# Court case judgement analysis: a Dafny model of the prediction client and its pages

The repository is a browser demo that lets a visitor register and log in
against an in-memory user list, type a description of a legal case, and see
an "AI prediction" of its outcome. This project models the decision logic
of four of its files and proves what that logic does:

- `GeminiService` (`src/utils/geminiService.ts`): the prompt built around the
  case text, the greedy `{…}` extraction from the generated text, the
  field-by-field normalisation (defaults for falsy fields, probability
  clamped to [60, 95]) and the single fallback record every failure
  collapses to. The service and `JSON.parse` are parameters: the service is a
  function from the prompt to an abstract `Reply` (network error, or an HTTP
  status with or without candidate text), the parser a function from the
  extracted block to optional, already-typed fields. `Analyze` is a total
  function, which is the model's form of "never throws".
- `IndexPage` (`src/pages/Index.tsx`): the component state (`users`,
  `currentUser`, the two dialog flags) as a class; registration's three
  ordered checks, with the email regular expression written out as the
  split A@B.C it accepts and proved equal to a structural reading; login as a
  first-match lookup on first name, last name and password.
- `CaseInput` (`src/pages/CaseInput.tsx`): the 3000-character cap in
  `onChange`, `remainingChars`, the submit checks (white-space-only text
  first, then raw length under 50), the disabled condition, the storage
  write and logout.
- `PredictionResultPage` (`src/pages/PredictionResult.tsx`): the mount
  effect's redirect guard and analysis, the render decision, the
  type-to-icon and type-to-colour switches, the 500-character summary and
  the two handlers that remove storage keys.
- `BrowserStorage`: `localStorage` as a class over `map<string, string>`,
  shared by the two case pages. `Text`: JavaScript `trim()`, `\s`,
  `slice(0, n)`, and the first-`{` and last-`}` searches that describe what
  the match at `src/utils/geminiService.ts:60` returns. `Ui`: toasts and navigation
  targets as labels. `Flows`: the two case pages joined through storage.

The `PredictionResult` interface (`src/utils/geminiService.ts:8`) and the
format the prompt asks for (`src/utils/geminiService.ts:21-25`) promise more
than the code enforces, and the model follows the code: the `type` field is
not checked against its three declared values (any non-empty string passes
through, and the result page draws it like "neutral"); `reasoning` passes
through whenever it is an array, the empty array included; and a
probability of 0 is replaced by 75, because `result.probability || 75`
treats 0 as missing.

## Model

| member | source | states |
|---|---|---|
| GeminiService.Prompt | src/utils/geminiService.ts:14-29 | the prompt is the fixed head, the case text verbatim, then the fixed JSON-format tail |
| GeminiService.CaseOfPromptRoundTrip | src/utils/geminiService.ts:17 | the case text can be read back out of its prompt unchanged |
| GeminiService.PromptInjective | src/utils/geminiService.ts:14-29 | two different case texts never produce the same prompt |
| GeminiService.ExtractJson | src/utils/geminiService.ts:60-63 | a block is found iff some `}` follows some `{`; it runs from the first `{` to the last `}` |
| GeminiService.ExtractJsonShape | src/utils/geminiService.ts:60 | an extracted block starts with `{`, ends with `}` and is no longer than the text |
| GeminiService.NormalizeProbability | src/utils/geminiService.ts:70 | result in [60,95]; in-range values unchanged; above 95 gives 95; non-zero below 60 gives 60; absent or 0 gives 75 |
| GeminiService.Normalize | src/utils/geminiService.ts:68-74 | each field independently: truthy outcome/type/confidence kept, falsy ones replaced by their defaults; reasoning kept iff an array; probability normalised |
| GeminiService.Fallback | src/utils/geminiService.ts:80-90 | the fixed record: "Case analysis temporarily unavailable", probability 75, type "neutral", the three fixed reasons, "AI service temporarily unavailable" |
| GeminiService.Interpret | src/utils/geminiService.ts:52-65 | the `try` steps in order: failed request, non-OK status, missing candidate text, no brace block, rejected parse each give their own error; otherwise the parsed fields |
| GeminiService.Analyze | src/utils/geminiService.ts:13-92 | total; probability always in [60,95]; any failure yields exactly the fallback record, success yields the normalised fields |
| GeminiService.FailuresYieldFallback | src/utils/geminiService.ts:52-91 | network error, non-OK status, missing text, no `}` after a `{`, and parse failure each return the fixed fallback record |
| GeminiService.NotFallbackMeansParsed | src/utils/geminiService.ts:56-74 | a result other than the fallback comes only from an OK reply whose block parsed, and is its normalisation |
| Text.TrimStart | src/pages/CaseInput.tsx:28 | removes exactly the leading white space |
| Text.TrimEnd | src/pages/CaseInput.tsx:28 | removes exactly the trailing white space |
| Text.IsSpace | src/pages/Index.tsx:56 | the ECMAScript white-space and line-terminator set that `\s` and `trim()` use; `@`, `.`, `{` and `}` are not in it |
| Text.Trim | src/pages/CaseInput.tsx:28 | the trimmed text is empty iff every character is white space; otherwise it starts and ends with a non-space; it is a piece of the input with only white space before and after |
| Text.StripBothEnds | src/pages/CaseInput.tsx:159 | removing a white-space prefix and then a white-space suffix leaves a piece of the input framed by white space |
| Text.Prefix | src/pages/CaseInput.tsx:111 | `slice(0, n)`: the first n characters, or the whole text when shorter |
| Text.IndexOf | src/utils/geminiService.ts:60 | position of the first occurrence of a character, none iff absent |
| Text.LastIndexOf | src/utils/geminiService.ts:60 | position of the last occurrence of a character, none iff absent |
| BrowserStorage.Storage.GetItem | src/pages/PredictionResult.tsx:37 | a value iff the key is stored, and then the stored value |
| BrowserStorage.Storage.SetItem | src/pages/CaseInput.tsx:44 | the key is bound to the value, every other key untouched |
| BrowserStorage.Storage.RemoveItem | src/pages/CaseInput.tsx:20 | the key is removed, every other key untouched |
| IndexPage.IsValidEmail | src/pages/Index.tsx:56-57 | the regex as a split A@B.C with non-empty parts free of white space and `@`; an accepted email has at least 5 characters and neither starts nor ends with `@` |
| IndexPage.EmailRegexMeansShape | src/pages/Index.tsx:56-57 | the regex accepts an email iff it has no white space, one `@` after a non-empty local part, and a dot strictly inside the domain |
| IndexPage.SplitHasShape | src/pages/Index.tsx:56 | a split A@B.C with parts free of white space and `@` has the structural shape |
| IndexPage.ShapeHasSplit | src/pages/Index.tsx:56 | an email of the structural shape has such a split |
| IndexPage.RegistrationError | src/pages/Index.tsx:45-60 | password mismatch first, then any empty field, then a bad email, each with its own message; none iff all pass |
| IndexPage.AcceptedFormIsComplete | src/pages/Index.tsx:45-68 | an accepted form gives a user with every field filled, matching confirmation and a well-shaped email |
| IndexPage.NewUser | src/pages/Index.tsx:62-68 | the stored user keeps the form's email and birth date and matches a login with the form's names and password |
| IndexPage.FindUser | src/pages/Index.tsx:80-84 | the first user matching first name, last name and password; none iff no user matches |
| IndexPage.FindUserIgnoresEmailAndBirth | src/pages/Index.tsx:80-84 | lookups over lists that agree on names and passwords agree, whatever the emails and birth dates |
| IndexPage.FindUserAfterAppend | src/pages/Index.tsx:70-84 | appending users keeps an existing match; otherwise the first match among the appended ones is found |
| IndexPage.Index.constructor | src/pages/Index.tsx:21-24 | no users, nobody logged in, both dialogs closed |
| IndexPage.Index.SetLoginOpen | src/pages/Index.tsx:124 | the login dialog's open flag is set |
| IndexPage.Index.SetRegisterOpen | src/pages/Index.tsx:170 | the registration dialog's open flag is set |
| IndexPage.Index.Register | src/pages/Index.tsx:42-75 | a rejected form changes nothing and reports the first failing check; an accepted one appends the user, logs them in, closes the dialog and navigates |
| IndexPage.Index.Login | src/pages/Index.tsx:77-94 | the first match becomes the current user; with none, nothing changes; users never change |
| IndexPage.RegisterTwiceThenLogin | src/pages/Index.tsx:62-87 | with no duplicate check, the same credentials registered twice store two users and login picks the first |
| CaseInput.SubmitError | src/pages/CaseInput.tsx:28-36 | white-space-only text rejected first, then raw length under 50; accepted iff neither |
| CaseInput.CaseInputPage.constructor | src/pages/CaseInput.tsx:12-13 | empty text, not submitting |
| CaseInput.CaseInputPage.OnChange | src/pages/CaseInput.tsx:111 | text of at most 3000 characters is kept, a longer one cut to its first 3000 |
| CaseInput.CaseInputPage.RemainingChars | src/pages/CaseInput.tsx:16-17 | 3000 minus the text length, hence in [0,3000] |
| CaseInput.CaseInputPage.SubmitDisabled | src/pages/CaseInput.tsx:159 | disabled iff submitting or the text is white space only |
| CaseInput.CaseInputPage.HandleSubmit | src/pages/CaseInput.tsx:25-48 | a rejected text writes nothing and leaves the flag; an accepted one sets the flag and stores exactly the text under `submittedCase` |
| CaseInput.CaseInputPage.HandleLogout | src/pages/CaseInput.tsx:19-23 | removes only `currentUser` |
| CaseInput.TypeAndSubmit | src/pages/CaseInput.tsx:25-111 | after typing, submit is accepted iff the capped text passes, and then storage holds exactly that text |
| PredictionResultPage.OutcomeIcon | src/pages/PredictionResult.tsx:64-73 | check iff "favorable", cross iff "unfavorable", warning for every other string |
| PredictionResultPage.OutcomeColor | src/pages/PredictionResult.tsx:75-84 | emerald iff "favorable", red iff "unfavorable", amber for every other string |
| PredictionResultPage.IconAndColorAgree | src/pages/PredictionResult.tsx:64-84 | icon colour and card gradient always name the same hue |
| PredictionResultPage.UnknownTypeLooksNeutral | src/pages/PredictionResult.tsx:64-84 | any other type, and the fallback record's, is drawn exactly like "neutral" |
| PredictionResultPage.Summary | src/pages/PredictionResult.tsx:241-242 | text of at most 500 characters shown unchanged; a longer one as its first 500 plus "..."; never over 503 |
| PredictionResultPage.HasSubmission | src/pages/PredictionResult.tsx:37-38 | the guard passes only when `submittedCase` is stored with a non-empty value; an absent key always redirects |
| PredictionResultPage.ResultPage.constructor | src/pages/PredictionResult.tsx:24-26 | empty text, loading, no prediction |
| PredictionResultPage.ResultPage.Load | src/pages/PredictionResult.tsx:36-62 | with no submitted case, redirect and change nothing; otherwise analyse exactly the stored text, set the prediction and stop loading |
| PredictionResultPage.ResultPage.View | src/pages/PredictionResult.tsx:86-147 | spinner iff loading, nothing iff no prediction, otherwise the report of that prediction with the icon and gradient of its type and the summary of the case text |
| PredictionResultPage.ResultPage.HandleLogout | src/pages/PredictionResult.tsx:29-34 | removes `currentUser` and `submittedCase` and nothing else |
| PredictionResultPage.ResultPage.SubmitAnother | src/pages/PredictionResult.tsx:251-254 | removes only `submittedCase` and returns to the form |
| Flows.OpenResultPage | src/pages/PredictionResult.tsx:36-114 | a stored submission is analysed and reported with probability in [60,95]; none means redirect and spinner |
| Flows.SubmitThenView | src/pages/CaseInput.tsx:38-47 | the text the form accepts is exactly the text the result page analyses and summarises |
| Flows.ResubmitClearsCase | src/pages/PredictionResult.tsx:251-254 | after "Submit Another Case" the page redirects instead of analysing |

## Left out

- The HTTP request itself (URL, key, headers, sampling configuration) and `response.json()`: the reply is an input. A body that is not JSON is folded into "missing candidate text".
- `JSON.parse` and the JSON grammar: parsing is a parameter returning optional, already-typed fields, and a field of another JSON type is modelled as absent. In the source that is only true of `null`, `false` and `0`, which `||` replaces by the default; an array, an object, `true` or a non-zero number given for `outcome`, `type` or `confidence` passes through unchanged (geminiService.ts:69, 71, 73), and `Array.isArray` (line 72) passes an array of non-strings as well. The model does not capture these pass-throughs.
- GeminiService.NormalizeProbability: probability is modelled as an integer, so the [60, 95] bound stated here and by GeminiService.Analyze holds for integer probabilities only. A truthy non-numeric probability, such as the string `"85%"` that the prompt's own quoted example invites (geminiService.ts:22) or an object, makes `Math.max(x, 60)` and then `Math.min(…, 95)` return NaN (line 70), and the page then shows "NaN%" (PredictionResult.tsx:158). Fractional values are not rounded by the source and are not modelled either.
- Strings are sequences of characters, while JavaScript measures lengths in UTF-16 code units; texts with characters outside the Basic Multilingual Plane count differently.
- `setTimeout` delays and async ordering (CaseInput.tsx:41, PredictionResult.tsx:59-61): each handler runs to completion at once, so a second submit during the delay is not modelled.
- The `catch` branch of the result page's loading effect: the analysis is a total function, so it cannot be taken and its error toast is not modelled.
- Toasts, navigation, console logging, JSX and CSS: recorded only as message and route labels.
- The completion percentage bar (CaseInput.tsx:145, 150): floating-point division and rounding.
- The "Return to Project Info" button (PredictionResult.tsx:263), which only navigates.
- The browser's HTML form constraints (`required`, `type="email"`, `type="date"`, Index.tsx:141-236, and `maxLength`, CaseInput.tsx:113) run before the handlers and are not modelled: Register is modelled as called with any form, so its "All fields are required" branch is reachable in the model although the form's `required` fields keep it from being reached through the page.
- The lifetime of the landing page's component state: `users` and `currentUser` are `useState` of that page (Index.tsx:21-22) and live only while it is mounted. A successful registration or login navigates away (Index.tsx:74, 90), which, with the usual one-route-per-page routing, unmounts the page; returning to "/" starts again from an empty list. The routing table is not part of this model and navigation is recorded only as a label, so Register, Login and RegisterTwiceThenLogin describe the handlers' logic on one mounted page, not a reachable browser session; in a session, the lookup at Index.tsx:80 runs on the users registered since the page was last mounted. `currentUser` is set but never read in Index.tsx.
- The form fields' `onChange` setters on the landing page: the form content at submit time is a parameter of Register and Login.
- src/pages/ProjectInfo.tsx: static content, and a logout identical to the case-input page's.
- Persistence of `currentUser` in storage: no modelled page writes that key; the pages only remove it.
