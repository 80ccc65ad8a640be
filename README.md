# OTP phone verification — a Dafny model

This project models the one-time-passcode flow of a small phone-verification
application. It has three parts:

- the **issue handler** (`POST /otp`), which checks that the submitted number is eligible and asks the SMS provider to send a six-digit code;
- the **verify handler** (`POST /validate`), which asks the provider for a verdict on a submitted code and returns a placeholder signed download URL only on a Valid verdict;
- the **client form**, whose six state fields move from Idle to Sent to Verified.

Both handlers are modelled as pure functions (modules `SendOtp` and `VerifyOtp`).
The provider is a function parameter, the "oracle": it gives the reply to each request the handler makes.
Each invocation is an `Http.Invocation`. It records the provider requests made, in order, and whether the handler returned a response or its promise rejected.

The form has two layers (module `PhoneVerification`):

- Specification functions on a `FormState` value say what each handler does.
- The class `PhoneVerificationForm` holds the six fields, and its handler methods are proved to perform those transitions.

`Deliver` adds the browser's own gating:

- a disabled input takes no typing;
- the code input exists only while a code is pending;
- the browser refuses to submit when an enabled input does not match its `pattern`.

Module `InputPatterns` writes the two `pattern` regular expressions as syntax trees with a matcher, and proves that each one means a plain description.
Each handler builds the reference id with its own template literal. The model keeps the two constructions separate (`SendOtp.ReferenceId`, `VerifyOtp.ReferenceId`) and proves that they agree.
Module `OtpFlow` proves properties that span components: with each form handler taken as one atomic step, the issue and verify requests name the same provider binding; and the form can become verified only on a Valid verdict.

The model follows the code as written, including these behaviours:

- A failed provider send is not caught in `sendOtp.ts`, so the invocation rejects (`Rejected(ProviderSendFailure)`) instead of returning a response.
- A missing or malformed body makes `JSON.parse` throw outside any `try`. Both handlers then reject (`Rejected(BodyParseFailure)`) without calling the provider and without returning a response.
- A body without `phoneNumber` gets the 400 answer from the issue handler: `undefined == ORIGINATION_NUMBER` is false when the variable is set, so the number counts as ineligible.
- In the verify handler, a missing number is formatted by the template literal as `undefined-YourAppName`. That is the same reference id as the literal number `"undefined"` (`SendOtp.MissingNumberCollides` for the rule, which `OtpFlow.ReferenceIdsAgree` shows the verify handler shares).

## Model

| member | source | states |
|---|---|---|
| `SendOtp.IsPhoneNumberExists` | amplify/functions/src/sendOtp.ts:35-38 | eligible iff the submitted number equals the configured origination number as a string; a missing number is eligible only if that setting is unset too |
| `SendOtp.ReferenceId` | amplify/functions/src/sendOtp.ts:54 | the reference id is the number's text followed by exactly `-YourAppName` (length, prefix and suffix) |
| `SendOtp.SendParams` | amplify/functions/src/sendOtp.ts:43-56 | the send request's destination is the submitted number unchanged, its reference id is `ReferenceId` of that number, its application id is the configured project |
| `SendOtp.Handle` | amplify/functions/src/sendOtp.ts:8-33 | at most one send; unparseable body rejects with no send; ineligible gives 400 "Phone number not found in database" with no send; eligible makes exactly the one send, then 200 "OTP sent successfully" if it succeeds and a rejection if it fails; every response has both CORS headers and a message-only body |
| `SendOtp.SendIffEligible` | amplify/functions/src/sendOtp.ts:13-32 | for every configuration, including an unset origination number, a send is made iff the body parses and the number equals the configured value, and the 400 answer is given iff it parses and differs |
| `SendOtp.SendParamsFixed` | amplify/functions/src/sendOtp.ts:44-55 | every send uses SMS, brand YourAppName, code length 6, validity 15, 3 attempts, en-US, origination "Test", whatever the input |
| `SendOtp.ReferenceIdInjective` | amplify/functions/src/sendOtp.ts:54 | two different submitted numbers never share a reference id |
| `SendOtp.MissingNumberCollides` | amplify/functions/src/sendOtp.ts:54 | a missing number and the number "undefined" get the same reference id |
| `SendOtp.OneSendPerEligibleRequest` | amplify/functions/src/sendOtp.ts:13-14 | over any sequence of issue requests there is exactly one send per eligible request: no deduplication or caching |
| `SendOtp.ResendIsNotSuppressed` | amplify/functions/src/sendOtp.ts:13-14 | issuing twice for one eligible number makes the same send twice |
| `VerifyOtp.VerdictOf` | amplify/functions/src/verifyOtp.ts:25 | the verdict is Valid iff the provider answered with a verification response whose `Valid` is true, and Error iff the provider threw |
| `VerifyOtp.ReferenceId` | amplify/functions/src/verifyOtp.ts:16 | the verify reference id is the number's text followed by exactly `-YourAppName` |
| `VerifyOtp.VerifyParams` | amplify/functions/src/verifyOtp.ts:11-18 | number and code reach the provider unchanged, with the rebuilt reference id and the configured project |
| `VerifyOtp.ResponseFor` | amplify/functions/src/verifyOtp.ts:25-63 | signed URL present iff Valid, and then non-empty; 400 iff the provider threw, 200 otherwise; Valid gives status true, Invalid gives status false with "OTP verification failed", Error gives a message-only body; CORS headers always |
| `VerifyOtp.Handle` | amplify/functions/src/verifyOtp.ts:8-64 | an unparseable body rejects with no provider call; otherwise exactly one verify request with the params above, and the response is the one its reply calls for |
| `VerifyOtp.SignedUrlOnlyOnValid` | amplify/functions/src/verifyOtp.ts:25-63 | an invocation returns a signed URL iff the body parsed and the provider's verdict was Valid |
| `VerifyOtp.ErrorAndInvalidAreDistinguished` | amplify/functions/src/verifyOtp.ts:39-63 | a provider exception is a 400 with no status; an Invalid verdict is a 200 with status false |
| `VerifyOtp.ResponseFieldsAreConstants` | amplify/functions/src/verifyOtp.ts:33-62 | every message and signed URL returned is one of the handler's own constants, so no response echoes request data |
| `VerifyOtp.ResponseIndependentOfCode` | amplify/functions/src/verifyOtp.ts:20-63 | two requests whose provider replies agree get the same outcome whatever codes they carried |
| `Http.Reply` | amplify/functions/src/sendOtp.ts:15-31 | a built response carries `Access-Control-Allow-Origin: *` and `Access-Control-Allow-Headers: *` |
| `InputPatterns.RepeatDigitsMeaning` | src/phoneVerification.tsx:104 | `\d{min,max}` matches exactly the all-digit strings with length in [min, max] |
| `InputPatterns.SignificandMeaning` | src/phoneVerification.tsx:88 | `[1-9]\d{1,14}` matches exactly the 2 to 15 digit strings not starting with 0 |
| `InputPatterns.PhonePatternMeaning` | src/phoneVerification.tsx:88 | `^\+?[1-9]\d{1,14}$` accepts exactly an optional '+' followed by 2 to 15 digits, the first not 0 |
| `InputPatterns.OtpPatternMeaning` | src/phoneVerification.tsx:104 | `^\d{6}$` accepts exactly the strings of six digits |
| `InputPatterns.PhoneNumberShape` | src/phoneVerification.tsx:88 | an accepted number has 2 to 16 characters, all digits after the first (so it is never empty) |
| `PhoneVerification.Initial` | src/phoneVerification.tsx:9-14 | the form starts with an empty number, an empty code, no code sent, not verified, the URL set to the empty string (so no link) and no error |
| `PhoneVerification.ErrorText` | src/phoneVerification.tsx:39-69 | a thrown Error shows its own message, any other thrown value the fallback text, in both the send (line 40) and the verify (line 69) catch |
| `PhoneVerification.AfterSendOtp` | src/phoneVerification.tsx:24-41 | a reply (any content) marks the code sent and leaves the error empty; a throw sets the error and leaves the phase unchanged; no other field changes |
| `PhoneVerification.AfterVerifyOtp` | src/phoneVerification.tsx:43-71 | verified iff already verified or the reply's status is truthy; a truthy reply stores its signed URL, anything else leaves the URL as it was; the error becomes empty on a truthy reply, "Invalid OTP" on any other reply, and the thrown message (or "Verification failed") on a throw; number, code and phase unchanged |
| `PhoneVerification.IssueRequest` | src/phoneVerification.tsx:33 | the code request carries the form's number and no code |
| `PhoneVerification.VerifyRequest` | src/phoneVerification.tsx:53-56 | the verify request carries the form's number and code |
| `PhoneVerification.AfterPhoneChange` | src/phoneVerification.tsx:16-18 | typing into the number field replaces the number and nothing else |
| `PhoneVerification.AfterOtpChange` | src/phoneVerification.tsx:20-22 | typing into the code field replaces the code and nothing else |
| `PhoneVerification.FormControls` | src/phoneVerification.tsx:86-96 | the number field is disabled exactly when the "Send OTP" button is gone; the code field never appears beside that button; with the invariant, exactly one submit control is rendered until verified and none after |
| `PhoneVerification.SuccessLinkShown` | src/phoneVerification.tsx:112 | the success link is shown only when verified and the stored URL is a non-empty string, and never beside the code field |
| `PhoneVerification.SubmitAllowed` | src/phoneVerification.tsx:78-104 | the browser submits only from an unverified phase, before sending only a number matching the phone pattern, after sending only a six-digit code |
| `PhoneVerification.AfterSubmit` | src/phoneVerification.tsx:78 | submit runs the send transition before a code was sent and the verify transition after |
| `PhoneVerification.Deliver` | src/phoneVerification.tsx:78-104 | typing into the disabled number field or the absent code field changes nothing; a submission the pattern check refuses runs no handler |
| `PhoneVerification.DeliverKeepsInvariant` | src/phoneVerification.tsx:78-88 | every event keeps "verified implies sent" and "sent implies the number matches the phone pattern" |
| `PhoneVerification.RunKeepsInvariant` | src/phoneVerification.tsx:78-96 | any sequence of events keeps the invariant |
| `PhoneVerification.SentIsPermanent` | src/phoneVerification.tsx:78-86 | once a code was sent it stays sent (nothing resets it) and the number never changes again |
| `PhoneVerification.VerifiedIsFinal` | src/phoneVerification.tsx:92-96 | no event changes a verified form |
| `PhoneVerification.VerifyRequiresSentAndWellFormedOtp` | src/phoneVerification.tsx:96-104 | a submission after sending runs the verify transition only while unverified and with a six-digit code |
| `PhoneVerification.SuccessLinkOnlyAfterTruthyStatus` | src/phoneVerification.tsx:112 | the success link appears only on a submitted verify reply with truthy status and a non-empty signed URL, after a code was sent |
| `PhoneVerification.PhoneVerificationForm.constructor` | src/phoneVerification.tsx:9-14 | the six fields start in the initial state, which satisfies the invariant |
| `PhoneVerification.PhoneVerificationForm.HandlePhoneChange` | src/phoneVerification.tsx:16-18 | only the number changes, to the typed value |
| `PhoneVerification.PhoneVerificationForm.HandleOtpChange` | src/phoneVerification.tsx:20-22 | only the code changes, to the typed value |
| `PhoneVerification.PhoneVerificationForm.SendOtpHandler` | src/phoneVerification.tsx:24-41 | the fields end as `AfterSendOtp` of the old state |
| `PhoneVerification.PhoneVerificationForm.VerifyOtpHandler` | src/phoneVerification.tsx:43-71 | the fields end as `AfterVerifyOtp` of the old state |
| `PhoneVerification.PhoneVerificationForm.Submit` | src/phoneVerification.tsx:78 | the fields end as `AfterSubmit` of the old state |
| `PhoneVerification.PhoneVerificationForm.Receive` | src/phoneVerification.tsx:78-104 | the fields end as `Deliver` of the old state and the invariant is kept |
| `OtpFlow.ReferenceIdsAgree` | amplify/functions/src/verifyOtp.ts:16 | both handlers build the same reference id for the same number |
| `OtpFlow.VerifyUsesIssueBinding` | amplify/functions/src/verifyOtp.ts:13-16 | after a successful code request, every later verify request reaches the provider with the destination and reference id of the send made for it |
| `OtpFlow.VerifiedIffValidVerdict` | src/phoneVerification.tsx:62-64 | given the verify handler's reply, the form becomes verified and shows the link iff the provider's verdict is Valid; otherwise it shows "Invalid OTP" |
| `OtpFlow.NoVerificationWithoutValidVerdict` | amplify/functions/src/verifyOtp.ts:25-38 | whether the transport delivers the reply or throws, the form becomes verified only on a Valid verdict |

## Left out

- The SMS provider SDK and its client construction are not modelled. Sending and verifying are function parameters that answer each request.
- Amplify's `post` is not modelled. Whether an HTTP error status reaches the form as a reply or as a throw is part of the `PostResult` parameter. As a consequence, the form marks a code as sent on any reply it receives, including the body of a 400.
- JSON text is not modelled. A request body is its parse result, and a response body is the object before serialisation. Key order and escaping are out of scope. Field values that are not strings are left out, and so are the coercions `==` would apply to them.
- What the Lambda runtime and the API gateway send back when a handler's promise rejects is not modelled. The model stops at `Rejected`.
- The code generated with `Math.random` in `sendOtp.ts` is not modelled. It is floating point and nondeterministic, and its value is never used.
- Logging to the console is not modelled.
- Asynchronous interleaving is not modelled. Each form handler is one atomic transition, so the intermediate render after `setError('')`, before the reply arrives, is not captured. Overlapping submissions are not captured either.
- `OtpFlow.VerifyUsesIssueBinding` and the second conjunct of `PhoneVerification.Invariant` ("sent implies the number matches the phone pattern") hold only under that atomic view. In the form, the number field stays enabled while the code request is pending: it is disabled only once `isOtpSent` is set, after the reply arrives. A user who edits the number in that window leaves the form Sent with a number no code was sent to, which need not match the pattern. The later verify request then carries that number and a different reference id.
- JSX rendering, styling and `e.preventDefault()` are not modelled. Only the guards that decide which inputs and buttons exist or are disabled are kept.
- The `required` attributes are not modelled separately. Both patterns already reject the empty string.
- Infrastructure declarations and application bootstrap (`amplify/backend.ts`, `amplify/functions/resource.ts`, `src/main.tsx`) are not part of this model. The configured origination number and project id are parameters.
