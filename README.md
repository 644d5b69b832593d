# Udyam registration clone, modelled in Dafny

The system is a three-part clone of the Udyam MSME registration form:

- a **scraper** (`scraper/scraper.py`) that reads the registration page and writes a field schema;
- a **frontend page** (`frontend/pages/index.tsx`) that walks an applicant through three steps: Aadhaar number, then OTP, then PAN;
- a **backend controller** (`backend/controllers/formController.js`) that issues and checks one-time passwords and stores the final submission.

The model covers the logic of each part and how the page and the backend work together.

- `Wrappers`, `Text`, `Patterns`: the shared vocabulary.
  - `Option`.
  - ASCII character classes and case mapping.
  - The whitespace that `trim()` removes.
  - Decimal conversion of numbers.
  - The fixed anchored regular expressions the form uses (`^\d{12}$`, `^\d{6}$`, `^[A-Z]{5}[0-9]{4}[A-Z]{1}$`, `^[A-Za-z]{5}[0-9]{4}[A-Za-z]{1}$`). Each is a list of character-class runs, with a matcher.
- `FormController`: the backend.
  - `validatePan`.
  - The in-memory OTP store (class `OtpStore`), whose handlers are specified by the pure transitions `Generate` and `Verify`.
  - `submitForm`.
- `IndexPage`: the page.
  - The two validators.
  - Live field validation (`validateField`) and step validation (`validateStep`).
  - The `handleSubmit` step machine (`Submit`) and the "Start New Registration" reset.
  - The module-level `aadhaarVerificationStatus` record (class `VerificationStatus`).
  - The component's state (class `RegistrationPage`). Its methods are proved equal to the pure transitions.
- `Scraper`: the scraper.
  - `to_camel`.
  - The decisions inside `add_field`: the hidden-field skip, name and label fallbacks, validation extraction and the `int()` conversion that may raise.
  - The step guess from container text.
  - The container loop, with an explicit `order` counter (class `SchemaBuilder`).
- `Flow`: one press of the submit button as a round trip. The page's request is answered by the matching route of `backend/routes/formRoutes.js` (`/generate-otp`, `/verify-otp`, `/submit`), and the answer drives the page's next state. It also proves the three-press registration path and the disagreements between the page's and the backend's checks.

The model takes these things as parameters:

- the clock (`now`, in milliseconds);
- the random OTP (`code`);
- the Aadhaar check of `validation.js` (`validateAadhaar: string -> bool`; `validation.js` is not part of this model);
- the database insert (`create: Submission -> Option<int>`, where `None` is a thrown error);
- the HTTP reply the page receives (`HttpResult`, where `NoResponse` is a network failure);
- for the scraper, the element tree and the visibility map.

Behaviours of the code a reader may not expect:

- `crypto.randomInt(100000, 999999)` excludes its upper bound, so an issued code lies in [100000, 999999).
- The backend requires an upper-case PAN, while the page accepts either case. `Flow.PanChecksDiffer` and `Flow.LowerCasePanStuck` show that a lower-case PAN passes the page and is refused by `/submit`.
- `submitForm` does not check that the Aadhaar number was OTP-verified.
- `validateStep` omits the "must be verified with OTP" rule that `validateField` applies.
- At step 1, `handleSubmit` sets `aadhaarVerified` as soon as an OTP is sent, before any verification.

## Model

| member | source | states |
|---|---|---|
| Patterns.FullMatchIff | frontend/pages/index.tsx:19-21 | an anchored run pattern matches exactly the strings of its width whose every character lies in the class at that position |
| Patterns.DigitsMatch | frontend/pages/index.tsx:19-21 | `^\d{n}$` matches a string iff it is exactly n ASCII digits |
| Patterns.PanUpperCaseMatch | backend/controllers/formController.js:5-8 | the backend PAN regex matches iff the string is 5 upper-case letters, 4 digits, 1 upper-case letter |
| Patterns.PanAnyCaseMatch | frontend/pages/index.tsx:26-28 | the page's PAN regex matches iff the string is 5 letters of either case, 4 digits, 1 letter |
| FormController.ValidatePan | backend/controllers/formController.js:5-8 | `validatePan`: the string matches the upper-case PAN pattern; its meaning is given by `Patterns.PanUpperCaseMatch` |
| FormController.Generate | backend/controllers/formController.js:53-76 | `generateOtp` as a transition from the old store, the Aadhaar check, the drawn number and the clock to the reply and the new store; its behaviour is stated by `GenerateRejects`, `GenerateIssuesCode` and `ReissueInvalidatesOldCode` |
| FormController.Verify | backend/controllers/formController.js:78-108 | `verifyOtp` as a transition from the old store, the Aadhaar check, the OTP and the clock to the reply and the new store; its behaviour is stated by the `Verify*` lemmas |
| FormController.ValidatePanRejectsLowerCase | backend/controllers/formController.js:5-8 | a PAN containing any lower-case letter is refused by the backend |
| FormController.GenerateRejects | backend/controllers/formController.js:57-65 | a missing or empty number gives 400 "Aadhaar number is required"; one failing `validateAadhaar` gives 400 "Invalid Aadhaar number format"; there is an error exactly in these cases, and the store is then unchanged |
| FormController.GenerateIssuesCode | backend/controllers/formController.js:67-75 | a valid number gets "OTP sent successfully" and a fresh, unverified entry whose code is the decimal notation of the drawn number and whose expiry is now + 300000 ms; no other entry changes |
| FormController.ReissueInvalidatesOldCode | backend/controllers/formController.js:67-70 | after a second issue for the same number, the first code verifies iff it equals the second one (the entry is overwritten) |
| FormController.VerifySucceedsIff | backend/controllers/formController.js:78-108 | verification succeeds iff the number is present and valid, an OTP is given, an entry exists, now is not past its expiry and the OTP equals the stored code |
| FormController.VerifyFailures | backend/controllers/formController.js:81-107 | each failed check gives its own 400 message in the source's order: invalid number, missing OTP, no entry, expired, wrong code; every failure is status 400; a wrong code before the deadline leaves the store as it was; only "OTP expired" changes the store, by deleting the entry |
| FormController.VerifyExpired | backend/controllers/formController.js:95-98 | past the expiry, any OTP gets "OTP expired" and the entry is removed |
| FormController.VerifyDeadlineInclusive | backend/controllers/formController.js:95-107 | at exactly the expiry instant the right code still verifies, and a wrong code gets "Invalid OTP" with the store unchanged |
| FormController.VerifyTouchesOnlyItsKey | backend/controllers/formController.js:89-107 | verification never adds keys and leaves every other number's entry as it was |
| FormController.VerifyNoReplay | backend/controllers/formController.js:100-104 | a successful verification clears code and expiry and sets verified; any later attempt (at a positive time) is answered "OTP expired" and deletes the entry |
| FormController.HandlersPreserveWellFormed | backend/controllers/formController.js:53-108 | both handlers keep the store well formed: every entry is either a live, unverified code of six digits without a leading zero and with a deadline, or a spent entry with no code, no expiry and verified set |
| FormController.OtpStore.constructor | backend/controllers/formController.js:17 | the store starts empty |
| FormController.OtpStore.GenerateOtp | backend/controllers/formController.js:53-76 | the reply and the new entries are those of `Generate` on the old entries |
| FormController.OtpStore.VerifyOtp | backend/controllers/formController.js:78-108 | the reply and the new entries are those of `Verify` on the old entries |
| FormController.SubmitForm | backend/controllers/formController.js:19-51 | a row is offered to the database iff the Aadhaar and PAN checks pass, and it holds aadhaar, pan and the whole payload; an Aadhaar failure gives 400 "Invalid Aadhaar number"; otherwise a PAN failure gives 400 "Invalid PAN number format"; the reply is success with the row id iff the insert succeeds; a failed insert gives 500 "Server error" |
| IndexPage.RegexTest | frontend/pages/index.tsx:10-17 | `regexTest`: a missing pattern or a missing value passes, otherwise the value must match the whole pattern |
| IndexPage.AadhaarValid | frontend/pages/index.tsx:19-21 | `aadhaarValid`: a full match of `^\d{12}$`, characterised by `AadhaarValidIff` |
| IndexPage.PanValid | frontend/pages/index.tsx:26-28 | `panValid`: a full match of the either-case PAN pattern, characterised by `Patterns.PanAnyCaseMatch` |
| IndexPage.FieldError | frontend/pages/index.tsx:93-122 | the error `validateField` computes for one field, as an `if (!err ...)` chain; `FieldErrorIsFirstFailure` ties it to the first failing rule |
| IndexPage.StepError | frontend/pages/index.tsx:132-143 | the error `validateStep` computes for one field: required, pattern, Aadhaar digits and PAN format, with no length and no verification rule |
| IndexPage.StepErrors | frontend/pages/index.tsx:128-146 | the error map `validateStep` builds over the step's fields; its keys and values are stated by `StepErrorsKeys` and `StepErrorsLastWins` |
| IndexPage.Submit | frontend/pages/index.tsx:176-268 | `handleSubmit` as a transition on the page state and the backend's reply, dispatching on the current step; stated step by step by `AadhaarStep`, `OtpStep`, `PanStep` and `DoneStep` |
| IndexPage.StartOver | frontend/pages/index.tsx:382-389 | the "Start New Registration" reset, stated by `StartOverKeepsVerification` |
| IndexPage.SubmitBody | frontend/pages/index.tsx:250-254 | the body `{ aadhaar, pan, ...values }`, where later members override earlier ones and `undefined` members are dropped |
| IndexPage.KeyOf | frontend/pages/index.tsx:226 | the record key the page writes: the Aadhaar value, or "undefined" when there is none |
| IndexPage.AadhaarValidIff | frontend/pages/index.tsx:19-21 | `aadhaarValid(v \|\| '')` holds iff v is present and exactly 12 ASCII digits |
| IndexPage.FindField | frontend/pages/index.tsx:94-95 | finds the first schema field of that name, and finds none iff no field has the name |
| IndexPage.FirstFailureMeaning | frontend/pages/index.tsx:96-122 | a chain of `if (!err ...)` checks yields no error iff every check passes, and otherwise yields the first failing check's message |
| IndexPage.LengthOrPatternIsFirstFailure | frontend/pages/index.tsx:104-109 | the validation block reports the first of the minimum-length, maximum-length and pattern failures |
| IndexPage.FieldErrorIsFirstFailure | frontend/pages/index.tsx:98-122 | a field's live error is the first failing rule in the order: required, validation block, Aadhaar heuristic, PAN heuristic |
| IndexPage.AadhaarFieldFacts | frontend/pages/index.tsx:42-76 | the first schema field is `aadhaarNumber`, and it triggers only the Aadhaar heuristic |
| IndexPage.AadhaarFieldNeedsVerification | frontend/pages/index.tsx:113-119 | a well-formed Aadhaar number has no live error iff the verification record marks it; the step check never asks for verification |
| IndexPage.StepErrorsKeys | frontend/pages/index.tsx:128-149 | the step's new errors have an entry for exactly the names of the checked fields |
| IndexPage.StepErrorsLastWins | frontend/pages/index.tsx:131-146 | for a repeated name, the last field of that name decides its entry |
| IndexPage.SubmitAadhaar | frontend/pages/index.tsx:180-208 | step 1 sends a generate request iff the number is 12 digits, and moves to step 2 iff the resolved reply says "OTP sent successfully"; the values and the record are untouched |
| IndexPage.SubmitOtp | frontend/pages/index.tsx:209-238 | step 2 sends a verify request iff the OTP is 6 digits; it moves to step 3 and marks the number in the record iff the resolved reply says "OTP verified successfully" |
| IndexPage.SubmitPan | frontend/pages/index.tsx:239-267 | step 3 sends the submission iff the PAN passes the page's check, and moves to step 4 iff the resolved reply reports success |
| IndexPage.AadhaarStep | frontend/pages/index.tsx:180-208 | from a valid state at step 1: a bad number sets the field error and sends nothing; a good one sends the request; the step advances only on the success message |
| IndexPage.OtpStep | frontend/pages/index.tsx:209-238 | from a valid state at step 2: a malformed OTP sets the field error and sends nothing; success moves to step 3 and records the number, failure stays |
| IndexPage.PanStep | frontend/pages/index.tsx:239-267 | from a valid state at step 3: a bad PAN sets the field error and sends nothing; a good one sends `{aadhaar, pan, ...values}`; step 4 only on success |
| IndexPage.DoneStep | frontend/pages/index.tsx:176-178 | a submit at step 4 only clears the message |
| IndexPage.KeepsVerifiedOffStep2 | frontend/pages/index.tsx:226 | only the OTP step writes the verification record |
| IndexPage.SubmitPreservesValid | frontend/pages/index.tsx:176-268 | a submit keeps the page invariant, moves at most one step forward and never forgets a verified number |
| IndexPage.StartOverKeepsVerification | frontend/pages/index.tsx:382-389 | the reset returns to step 1 with no values, errors or message, and keeps the module-level verification record |
| IndexPage.CheckFields | frontend/pages/index.tsx:128-146 | the loop builds exactly the step's error map and returns true iff no field has an error |
| IndexPage.VerificationStatus.constructor | frontend/pages/index.tsx:23-24 | the record starts empty |
| IndexPage.RegistrationPage.constructor | frontend/pages/index.tsx:31-39 | the page starts at step 1 with empty values, errors and message and with both flags off |
| IndexPage.RegistrationPage.ValidateField | frontend/pages/index.tsx:93-125 | an unknown name changes nothing; a schema field gets exactly its live error under its name |
| IndexPage.RegistrationPage.SetValue | frontend/pages/index.tsx:87-90 | the value is stored, and the field's live error is recomputed as `ValidateField` would |
| IndexPage.RegistrationPage.ValidateStep | frontend/pages/index.tsx:128-149 | the errors are merged with the step's error map, and the result is true iff every field passes |
| IndexPage.RegistrationPage.HandleSubmit | frontend/pages/index.tsx:176-268 | the new state and the request sent are those of `Submit`, and the page invariant holds |
| IndexPage.RegistrationPage.SendAadhaar | frontend/pages/index.tsx:180-208 | the state change and the request are those of `SubmitAadhaar` |
| IndexPage.RegistrationPage.SendOtp | frontend/pages/index.tsx:209-238 | the state change, including the write to the verification record, and the request are those of `SubmitOtp` |
| IndexPage.RegistrationPage.SendPan | frontend/pages/index.tsx:239-267 | the state change and the request are those of `SubmitPan` |
| IndexPage.RegistrationPage.StartNewRegistration | frontend/pages/index.tsx:382-389 | the new state is `StartOver` of the old one |
| Scraper.Words | scraper/scraper.py:27-28 | the words `re.sub(...).strip().split()` yields: the maximal runs of ASCII letters and digits; characterised by `WordsJoinToAlnum`, `WordsAreAlnum` and `WordsEmptyIff` |
| Scraper.Title | scraper/scraper.py:31 | `str.title()` on a word, characterised by `TitleMeaning` |
| Scraper.ToCamel | scraper/scraper.py:25-31 | `to_camel`; its result is characterised by `ToCamelFallback`, `ToCamelKeepsAlnum`, `ToCamelIsIdentifier` and `ToCamelCasing` |
| Scraper.WordsJoinToAlnum | scraper/scraper.py:27-28 | the words of a string, joined, are exactly its ASCII letters and digits in order |
| Scraper.WordsAreAlnum | scraper/scraper.py:27-28 | every word is non-empty and made of letters and digits only |
| Scraper.WordsEmptyIff | scraper/scraper.py:27-29 | there are no words iff the string has no letter or digit |
| Scraper.TitleMeaning | scraper/scraper.py:31 | `str.title()` keeps the length and upper-cases exactly the characters that do not follow a letter, lower-casing the rest |
| Scraper.ToCamelFallback | scraper/scraper.py:29-30 | a string without letters or digits becomes "field" |
| Scraper.ToCamelKeepsAlnum | scraper/scraper.py:25-31 | otherwise the result is the string's letters and digits, the same up to case and of the same length |
| Scraper.ToCamelIsIdentifier | scraper/scraper.py:25-31 | the result is never empty and contains only ASCII letters and digits |
| Scraper.ToCamelCasing | scraper/scraper.py:31 | the result starts with the first word in lower case, and every later word, at its place in the result (after the letters and digits of the words before it), starts with its first character upper-cased |
| Scraper.ControlType | scraper/scraper.py:137-138 | the control's type: an input's lower-cased `type` attribute (default "text"), else "select", "textarea" or "text" |
| Scraper.ControlName | scraper/scraper.py:141-142 | the field name: `name`, else `id`, else `to_camel` of title and placeholder |
| Scraper.AadhaarCue | scraper/scraper.py:180 | the label mentions AADHAAR or AADHAR, or the lower-cased name starts with "aadhaar" |
| Scraper.PanCue | scraper/scraper.py:183 | the label mentions PAN, or the lower-cased name starts with "pan" |
| Scraper.PatternRule | scraper/scraper.py:174-185 | the pattern and message an entry gets, stated by `ExplicitPatternKept` and `CuesChoosePattern` |
| Scraper.LengthAttr | scraper/scraper.py:191-192 | `int(v) if v else None`, raising where `int()` does |
| Scraper.ExtractValidation | scraper/scraper.py:167-193 | the `validation` object or its absence, or an exception; stated by `ValidationPresence` and `BadLengthRaises` |
| Scraper.FieldEntry | scraper/scraper.py:135-220 | what one `add_field` call contributes: nothing for a hidden control, an entry with the given `order`, or an exception; stated by `HiddenSkipped` and `StepNumbered` |
| Scraper.HiddenSkipped | scraper/scraper.py:138-140 | an element yields no field and no exception iff its type is "hidden" |
| Scraper.ExplicitPatternKept | scraper/scraper.py:176-177 | an explicit `pattern` attribute is kept, with the message "Invalid format" |
| Scraper.CuesChoosePattern | scraper/scraper.py:178-185 | without one, a PAN cue gives the PAN pattern (overriding an Aadhaar cue), an Aadhaar cue alone gives the 12-digit pattern, and no cue gives no message |
| Scraper.ValidationPresence | scraper/scraper.py:187-193 | a validation entry exists iff there is a pattern, minlength or maxlength, and its message is never empty |
| Scraper.BadLengthRaises | scraper/scraper.py:191-192 | a minlength that `int()` cannot read raises |
| Scraper.StepGuess | scraper/scraper.py:230-231 | the step guess from a container's text; its contract bounds it to 1 or 2, and `StepGuessIff` says when it is 2 |
| Scraper.StepGuessIff | scraper/scraper.py:230-231 | the guess is 2 iff the container text mentions PAN and neither AADHAAR nor OTP, case-insensitively |
| Scraper.Fold | scraper/scraper.py:227-232 | the fields after a sequence of `add_field` calls, front to back, or the exception that stopped them; the specification of `SchemaBuilder.AddAll` and `ExtractFields` |
| Scraper.FoldRaises | scraper/scraper.py:227-232 | once `add_field` has raised, the extraction stays raised |
| Scraper.StepNumbered | scraper/scraper.py:206-220 | one `add_field` call keeps the fields numbered 0, 1, 2, ... by `_order`, only appends, and never appends a hidden field |
| Scraper.FoldNumbered | scraper/scraper.py:227-237 | the whole loop keeps that numbering, so the final sort by `_order` leaves the list as it is |
| Scraper.SchemaBuilder.constructor | scraper/scraper.py:132-133 | the builder starts with no fields and `order` 0 |
| Scraper.SchemaBuilder.AddField | scraper/scraper.py:135-220 | the call appends the element's entry, or nothing for a hidden one, or raises; `order` keeps counting the fields |
| Scraper.SchemaBuilder.AddAll | scraper/scraper.py:228-232 | a sequence of calls leaves the fields its fold describes, or raises where the fold raises |
| Scraper.SchemaBuilder.ExtractFields | scraper/scraper.py:223-232 | the nested loop over containers, or over the whole document when none is found, leaves the fields of the fold over all their controls |
| Flow.ToHttp | backend/controllers/formController.js:19-108 | a handler's `res.status(...).json(...)` as the page receives it: a message or success with 200, an error with its status |
| Flow.Serve | backend/routes/formRoutes.js:7-9 | the route a request reaches: `/generate-otp` to `generateOtp`, `/verify-otp` to `verifyOtp`, `/submit` to `submitForm`, with the store and the new row |
| Flow.Round | frontend/pages/index.tsx:176-268 | one press of the submit button: the page's request, the backend's answer, the page's reaction, the store and rows after it |
| Flow.RequestIgnoresResponse | frontend/pages/index.tsx:180-267 | the request a submit sends does not depend on the reply, and a submit that sends nothing ends the same whatever the reply |
| Flow.SuccessMessagesAgree | frontend/pages/index.tsx:196-225 | the success messages the page waits for are the ones the backend sends |
| Flow.IssuedCodesPassOtpCheck | backend/controllers/formController.js:67 | every code the backend can issue passes the page's six-digit OTP check |
| Flow.PanChecksDiffer | backend/controllers/formController.js:5-8 | every PAN the backend accepts passes the page's check, but "abcde1234f" passes the page and fails the backend |
| Flow.AadhaarRound | frontend/pages/index.tsx:180-208 | at step 1 a valid number reaches step 2, and the store holds a fresh code for it expiring in five minutes |
| Flow.OtpRound | frontend/pages/index.tsx:209-238 | at step 2 the stored, unexpired code reaches step 3; the number is then recorded as verified on both sides and its code is spent |
| Flow.PanRound | frontend/pages/index.tsx:239-267 | at step 3 an upper-case PAN with a working database reaches step 4 and adds exactly one row |
| Flow.ReachPanStep | frontend/pages/index.tsx:176-238 | issuing a code and then entering it within five minutes reaches step 3 with the number verified |
| Flow.HappyPath | frontend/pages/index.tsx:176-268 | Aadhaar, then the issued OTP, then an upper-case PAN ends at step 4 with one new row holding the entered values |
| Flow.LowerCasePanStuck | backend/controllers/formController.js:29-31 | a PAN that passes the page but not the backend leaves the page at step 3, shows "Invalid PAN number format" when the Aadhaar check passes, and adds no row |
| Flow.VerifiedOnStep2 | frontend/pages/index.tsx:225-226 | at step 2 the page records a number only when the backend has just marked it verified |
| Flow.VerifiedElsewhere | frontend/pages/index.tsx:176-268 | on any other step the verification record is left unchanged |
| Flow.VerifiedOnlyWithBackend | frontend/pages/index.tsx:225-226 | on every step the page's record grows only together with the backend's verified flag |

## Left out

- `validateAadhaar` (`validation.js`) is a parameter: the Aadhaar format rule the backend applies is not part of this model.
- Randomness (`crypto.randomInt`), the clock (`Date.now()`) and the database (`prisma.submission.create`) are parameters. Logging (`console.log`) is left out.
- `getSchema`, `server.js` and the express wiring are left out. `Flow.Serve` stands for the three routes.
- HTTP transport and axios are left out. Only what a reply makes the page do is modelled, and the `loading` flag and the "Loading..." screen are dropped.
- The debounced pincode lookup (`frontend/pages/index.tsx:151-174`) is left out: it is a timer plus a call to an external web service.
- Rendering, the components under `frontend/components` and the `schema`/`stepNFields` state are left out. The page's schema is the fixed `InitialSchema`.
- Request bodies are narrowed to strings: `Generate` and `Verify` take `Option<string>`, and `SubmitForm` takes a `map<string, string>` body. The handlers accept any JSON value, and a non-string one behaves differently. A numeric `otp` never equals the stored string (so "Invalid OTP"), `otp: 0` is falsy (so "OTP is required"), and a non-string `pan` is coerced to a string by the regular-expression test. The page always sends the strings its inputs hold, so these cases are not modelled.
- `otpStore` and `aadhaarVerificationStatus` are plain JavaScript objects, so inherited prototype keys such as `constructor` are visible through them. The Dafny maps have no such keys.
- Regular expressions are modelled only in the fixed forms the code uses. Schema patterns are held already parsed into that form. A general regular-expression engine is not modelled, and neither is the `catch` in `regexTest` for a pattern that does not compile.
- Case mapping covers ASCII letters only. String length counts characters, not UTF-16 code units.
- `int()` in the scraper accepts only an optionally signed run of ASCII digits. Surrounding whitespace, `_` separators and non-ASCII Unicode decimal digits, which Python also accepts, are not modelled.
- Scraper: browser automation, HTML parsing and label discovery are left out. The label search through `label[for]`, the parent `<label>`, the previous label and the element's own text is an input `labelText`.
- Scraper: the visibility map is an input and is taken to be a dictionary (the `isinstance` check is dropped). Option texts are taken as already stripped. `rawAttributes` keeps single-valued attributes only.
- Scraper: writing the JSON file and the `_order` removal are left out. The sort by `_order` is shown to change nothing (`Scraper.FoldNumbered`) and is not modelled as a separate step.
- Scraper: the container text behind the step guess is an input, since BeautifulSoup's text extraction is not part of this model.
