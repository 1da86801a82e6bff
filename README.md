# Verification form and code-delivery endpoint, modelled in Dafny

The system is a browser page for age and identity verification, with a small
serverless function that delivers one-time codes.

- **The page** (`src/pages/Index.tsx`) is a three-step flow:
  1. collect name, age, contact and company, then send a six-digit session code;
  2. check the typed code, a photo and, for the film company, the screening details;
  3. show the issued lookup code.
  Each completed flow appends one record to an in-memory list. An admin tab
  looks a record up by its code, ignoring letter case.
- **The endpoint** (`backend/send-code/index.py`) answers a CORS preflight,
  refuses other methods, checks that the three fields are present, and passes
  the code to the e-mail or the SMS sender. Each sender has a demo mode that
  reports success without sending anything.

Modules:

- `Wrappers`: `Option`.
- `Ascii`: digits, and ASCII upper/lower case.
- `Codes`: the session code (decimal rendering of a number in [100000, 999999])
  and the lookup code (characters 2 to 8 of a base-36 string, upper-cased).
- `Records`: the stored record and the first-match search.
- `Flow`: the page. Class `VerificationPage` holds the React state (`step`,
  `form`, `enteredCode`, `checkCode`, `verifiedData`, `verifications`). Each
  button is a `Press...` method. A click on a disabled or hidden button changes
  nothing. `Valid()` is the page invariant:
  - step 2 holds a session code;
  - step 3 shows the code of the last record;
  - every stored record has no photo and a code with at most six characters and
    no lower-case letters;
  - a displayed record is one of the stored ones.
- `SendCode`: the endpoint as pure functions. The SMTP exchange and the SMS
  provider call are function parameters that map what would be sent to its
  outcome.
- `Wire`: the page's request as the endpoint sees it.

Randomness is passed in as parameters:
- the session code takes `draw`, the integer part of `Math.random() * 900000`;
- the lookup code takes `raw`, the base-36 text of the random fraction.

The outcome of the page's `fetch` is a `Delivery` value. Environment variables
are an `Env` value.

## Notes on the code's behaviour

- `src/pages/Index.tsx:90` can give a lookup code shorter than six characters. `substring(2, 8)` of a short base-36 rendering is short (`Codes.LookupCode`). The search button at `src/pages/Index.tsx:503` needs a six-character query, so such a record can never be found (`Flow.ShortCodesUnreachable`).
- `src/pages/Index.tsx:418` disables the submit button while the photo, the code or a screening detail is missing. A click then does nothing and shows no message.
- `backend/send-code/index.py:43-46` sends every contact type other than `email` by SMS, not only `phone`.

## Model

| member | source | states |
|---|---|---|
| `Ascii.Upper` | src/pages/Index.tsx:179 | upper-casing keeps the length, maps each character through the ASCII case map, and leaves no lower-case letter |
| `Ascii.UpperIgnoresCase` | src/pages/Index.tsx:179 | two queries differing only in letter case have the same upper-case form |
| `Codes.Substring` | src/pages/Index.tsx:90 | `substring` clamps both indices to the length and orders them |
| `Codes.LookupCode` | src/pages/Index.tsx:89-91 | the lookup code has at most 6 characters, exactly 6 when the raw text has 8 or more, fewer (or none) when it is shorter; character i is raw character i+2 upper-cased; no lower-case letters |
| `Codes.DecimalString` | src/pages/Index.tsx:94 | `toString` of an integer yields at least one character, all digits, without a leading zero for positive numbers |
| `Codes.DecimalRoundTrip` | src/pages/Index.tsx:94 | reading the decimal rendering back gives the number |
| `Codes.DecimalLength` | src/pages/Index.tsx:94 | a number in [10^k, 10^(k+1)) renders as k+1 characters |
| `Codes.SessionCode` | src/pages/Index.tsx:94 | the session code is six digits with no leading zero, and its value is 100000 + draw |
| `Codes.SessionCodeReachable` | src/pages/Index.tsx:94 | every value from 100000 to 999999 is the value of the session code of some draw |
| `Codes.SessionCodeInjective` | src/pages/Index.tsx:94 | distinct draws give distinct session codes |
| `Records.Find` | src/pages/Index.tsx:179 | `find` returns nothing iff no record has the code; otherwise it returns the record at the first position that has it |
| `Records.FindFirst` | src/pages/Index.tsx:179 | the linear scan returns exactly what `Find` specifies |
| `Records.FindAppend` | src/pages/Index.tsx:168 | appending a record never changes an existing hit; the new record is found only if no earlier record has its code |
| `Flow.CanSendCode` | src/pages/Index.tsx:311 | the send button is enabled exactly when name, age, contact and company are all non-empty |
| `Flow.MovieDetailsComplete` | src/pages/Index.tsx:418 | the film company needs movie name, date and time all non-empty; any other company needs none |
| `Flow.CanSubmit` | src/pages/Index.tsx:418 | the submit button is enabled exactly when a photo is present, the entered code is non-empty and six characters long, and the film details are complete |
| `Flow.CanCheck` | src/pages/Index.tsx:503 | the search button is enabled exactly when the query has six characters |
| `Flow.ShownError` | src/pages/Index.tsx:121 | the failure toast shows the reply's error only when it is present and non-empty; otherwise the built-in text |
| `Flow.NewRecord` | src/pages/Index.tsx:155-166 | the new record copies name, age, contact, contact type, company and the three movie fields verbatim, carries the new lookup code and no photo |
| `Flow.VerificationPage.constructor` | src/pages/Index.tsx:34-55 | the page starts at step 1 with the empty form (contact type e-mail), empty code inputs, no displayed record and an empty store |
| `Flow.VerificationPage.Edit` | src/pages/Index.tsx:240-408 | typing into a text field, or choosing a company in its select, replaces that one field of the form; nothing else changes |
| `Flow.VerificationPage.SelectContactType` | src/pages/Index.tsx:262-265 | choosing the contact type replaces it; nothing else changes |
| `Flow.VerificationPage.UploadPhoto` | src/pages/Index.tsx:134-143 | a chosen file becomes the photo and the "photo uploaded" toast is shown; an empty choice changes nothing and shows nothing |
| `Flow.VerificationPage.TypeEnteredCode` | src/pages/Index.tsx:335-338 | the entered code is the typed text cut to six characters; nothing else changes |
| `Flow.VerificationPage.TypeCheckCode` | src/pages/Index.tsx:495-498 | the admin query is the typed text cut to six characters; nothing else changes |
| `Flow.VerificationPage.PressSendCode` | src/pages/Index.tsx:93-131 | the send button acts only at step 1 with name, age, contact and company non-empty (line 311); the request then carries contact type, contact and the session code; the page moves to step 2 and stores the session code only on a delivered reply; otherwise step and form stay and the failure toast is shown (with the reply's error when it is non-empty, else the built-in text); the store is never touched |
| `Flow.VerificationPage.PressSubmit` | src/pages/Index.tsx:145-176 | the submit button acts only at step 2 with a photo, a six-character entered code and, for films, all three movie fields (line 418); a code that differs from the session code changes nothing and shows the wrong-code toast; a matching code appends exactly one record at the end of the store, replaces the form's code with the lookup code and moves to step 3 |
| `Flow.VerificationPage.PressNewVerification` | src/pages/Index.tsx:446-462 | at step 3, returns to step 1 with an empty entered code and the empty form; the store, the admin query and the displayed record are untouched |
| `Flow.VerificationPage.PressCheck` | src/pages/Index.tsx:178-193 | the search acts only when the query has six characters (line 503); a hit displays the first record whose code equals the upper-cased query; a miss leaves the displayed record unchanged and shows "not found"; the store never changes |
| `Flow.VerificationPage.PressCheckAnother` | src/pages/Index.tsx:568-572 | while a record is displayed, clears it and the admin query; the store is untouched |
| `Flow.SubmitCompletesIff` | src/pages/Index.tsx:418 | on a valid page at step 2 a submission completes iff the code matches, a photo is present and the film details are complete when the company is films |
| `Flow.ShortCodesUnreachable` | src/pages/Index.tsx:503 | a search the button allows only ever shows a record whose code has six characters |
| `Flow.IssuedRecordIsFound` | src/pages/Index.tsx:155-181 | searching for a just-issued code (in any case) finds the new record when no earlier record shares its code |
| `Flow.SearchIgnoresCase` | src/pages/Index.tsx:179 | queries differing only in letter case show the same record |
| `Flow.SessionCode482913` | src/pages/Index.tsx:94 | the draw 382913 yields the session code "482913" |
| `Flow.RetailWalkthrough` | src/pages/Index.tsx:93-193 | filling in Ivan/25/a@b.com/retail, confirming code 482913 with a photo, then searching the issued code in lower case shows exactly that data, with empty movie fields and no photo |
| `Flow.FilmsWithoutDetails` | src/pages/Index.tsx:418 | for the film company with empty screening details the submit button is disabled: the page stays at step 2 and nothing is stored |
| `SendCode.CleanPhone` | backend/send-code/index.py:124 | the cleaned number contains only digits, keeps every digit's count, and is a subsequence of the input (original order) |
| `SendCode.SubsequenceMultiset` | backend/send-code/index.py:124 | a subsequence holds no character more often than the whole |
| `SendCode.CleanPhoneUnique` | backend/send-code/index.py:124 | those three properties determine the cleaned number uniquely |
| `SendCode.CleanPhoneKeepsDigits` | backend/send-code/index.py:124 | a number made only of digits is unchanged |
| `SendCode.IndexOf` | backend/send-code/index.py:130-131 | the position of the first occurrence of a character, or the length when it is absent |
| `SendCode.SplitApiKey` | backend/send-code/index.py:130-131 | with a `:` in the key, login is the text before the first `:` and psw the text up to the next `:` or the end; without one, login is the key and psw is empty; neither contains `:` |
| `SendCode.SplitApiKeyRoundTrip` | backend/send-code/index.py:130-131 | splitting `login:psw`, with or without a further `:` tail, gives back login and psw |
| `SendCode.SendEmail` | backend/send-code/index.py:69-113 | without an SMTP password (unset or empty) the result is success without sending; otherwise the SMTP exchange's outcome |
| `SendCode.SmsQueryFor` | backend/send-code/index.py:124-135 | the provider query carries the split login and psw, the cleaned phone number (`CleanPhone`), the message with the code, and format 3 |
| `SendCode.SendSms` | backend/send-code/index.py:116-146 | with the API key unset or `demo` the result is success without sending; otherwise the provider's answer to that query |
| `SendCode.Truthy` | backend/send-code/index.py:36 | a field counts as given when it is present and not the empty string (Python truthiness) |
| `SendCode.Method` | backend/send-code/index.py:10 | the request method, `POST` when the event has none |
| `SendCode.HasRequiredFields` | backend/send-code/index.py:36 | the body was read and all three of contact type, contact and code are given |
| `SendCode.Deliver` | backend/send-code/index.py:43-46 | `email` goes to the e-mail sender, every other contact type to the SMS sender |
| `SendCode.DeliverRoutes` | backend/send-code/index.py:43-46 | an `email` request never reaches the SMS provider, and any other contact type never reaches SMTP |
| `SendCode.Handle` | backend/send-code/index.py:8-66 | status is always 200, 400, 405 or 500 and the CORS origin header is always `*`; OPTIONS (and only OPTIONS) gets 200 with the preflight headers and an empty body; a missing method counts as POST; other methods get 405; a POST with a field missing or empty gets 400; an unreadable body gets 500 with the error; 405 carries the error "Method not allowed" and 400 the error "Missing required fields", both with the JSON content type; otherwise 200 with the JSON content type and the success message iff the chosen sender succeeded, else 500 with the sender's error |
| `SendCode.RejectionSendsNothing` | backend/send-code/index.py:23-41 | a 400 or 405 answer is the same whatever the environment and senders, so no sender is consulted |
| `SendCode.DemoModeAlwaysSucceeds` | backend/send-code/index.py:72-122 | with neither SMTP password nor SMS key set, every complete POST is answered 200 |
| `Wire.ContactTypeName` | src/pages/Index.tsx:15 | the contact type travels as the string "email" or "phone" |
| `Wire.ToEvent` | src/pages/Index.tsx:97-106 | the page's request reaches the endpoint as a POST whose body carries the contact type as "email" or "phone", the contact and the code |
| `Wire.PageRequestIsAccepted` | backend/send-code/index.py:36-59 | a request the page can send is never answered 400 or 405; it gets 200 exactly when the sender for its contact type succeeds, otherwise 500 |

## Left out

- Rendering, tabs, toasts' texts, icons and labels: presentation only. Toasts are modelled as `Toast` values that say which message is shown, the photo-upload toast included.
- The audio player (track rotation, the timer-driven volume ramp): browser media API, timers and floating point.
- `fetch` and `response.json()`: network I/O. Their outcome is the `Delivery` parameter of `PressSendCode` (delivered, rejected with an optional error, or unreachable).
- `Math.random` and the floating-point base-36 rendering: only their integer/text results are parameters; which strings `toString(36)` can produce is not modelled, so `LookupCode` is stated for any raw text.
- `Flow.VerificationPage.Edit`, `Flow.VerificationPage.SelectContactType`, `Flow.VerificationPage.UploadPhoto` and `Flow.VerificationPage.TypeEnteredCode`: the inputs are rendered only at certain steps (step-1 fields at step 1; the code input, the photo input and, for films, the movie fields at step 2); the model allows these edits at any step, which only widens the behaviours proved about.
- `Flow.VerificationPage.Edit`: the company is a select offering four values; the model, like the form's `string` type, accepts any string.
- `Flow.CanSubmit`, `Flow.CanCheck`, `Flow.VerificationPage.TypeEnteredCode` and `Flow.VerificationPage.TypeCheckCode`: JavaScript's `length` and `maxLength` count UTF-16 code units, the model's `|s|` counts characters. A query of three characters outside the Basic Multilingual Plane (three emoji) has length 6 in the browser and enables the search, which then shows "not found"; in the model that query has length 3 and the button stays disabled.
- `TypeEnteredCode` and `TypeCheckCode`: `maxLength` is modelled as cutting the typed text to six characters; how a browser treats pasted or composed text is not modelled.
- React's batched, closure-captured state updates and the `await` in `handleContactVerification` (src/pages/Index.tsx:97-109): `Flow.VerificationPage.PressSendCode` is one atomic transition on the current state. In the source the send button stays enabled at step 1 while the request is in flight, so a second click sends a second code, and a delivered second reply overwrites the first session code. Edits made during the wait are lost, because line 116 spreads the `formData` captured when the click happened. The model captures none of these interleavings.
- SMTP, MIME message construction and the SMS provider's HTTP call and JSON reply: external I/O, abstracted as functions from the `Email` or `SmsQuery` to a `SendResult` (which also covers the exceptions `send_email`/`send_sms` catch, such as a non-numeric `SMTP_PORT`).
- `json.loads`/`json.dumps`: the request body is modelled already parsed into three optional string fields, or as unreadable (`Malformed`, which also stands for a JSON value that is not an object); field values that are JSON non-strings are not modelled. Response bodies are datatypes, not JSON text.
- Unicode semantics of `toUpperCase` and `str.isdigit`: the model maps only ASCII letters and recognises only ASCII digits.
- The `context` argument of `handler` and the `message`/`code` extra keys of the demo replies: unused by the caller.
