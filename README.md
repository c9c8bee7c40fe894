# Staff onboarding handler, modelled in Dafny

This project models `create-new-staff`. That repository is one serverless function. It onboards a new staff member into an Appwrite project:

1. It reads the JSON request body and applies destructuring defaults: `username = firstName` and `role = "staff"`.
2. It refuses a request that is missing a required field (400 "Missing required fields").
3. It lists the staff documents that have the same `employeeId` and refuses a duplicate (409 "Employee already exists").
4. It creates an authentication account. The account gets a 24-character random temporary password and the first name as its display name.
5. It creates a staff profile document with status `"onboarding"`, linked to the account. The document carries four permissions.
6. It triggers a password-recovery email, which serves as the onboarding notice.
7. It answers `{ ok: true, authUserId, staffDocId }`.

Any error thrown along the way reaches the catch-all and becomes a 500. The response carries the error's message, or "Server error" when that message is empty.

The modules follow the pieces of that function:

- `password.dfy`, module `Password`: `randomPassword`. The 62-character alphabet is built from its seven runs of characters. The random choices are a supplied sequence of draws, each an index below 62.
- `request.dfy`, module `Request`: the parsed body and the destructuring defaults. Each field is absent, `null` or a string. The module also holds JavaScript truthiness and the required-field check.
- `profile.dfy`, module `Profile`: the staff profile record, the `value || null` rule and the permission list.
- `platform.dfy`, module `Platform`: the Appwrite project, seen from the handler. It holds the accounts, the staff documents, the recovery emails accepted for delivery, a log of the remote calls made and an id counter. Failure-injection flags make a kind of call fail with a given message. The project is a class, `Backend`, whose methods are the four SDK calls the handler makes. Each method is specified by a pure step function on the `State` value.
- `handler.dfy`, module `Handler`: the handler. `Onboard` is a pure function that gives the response and the new state. `Handle` is the imperative handler, a sequence of remote calls with early returns, and it is proved equal to `Onboard`. The lemmas state what each outcome leaves behind.

Some behaviour of the code is worth spelling out, and the model follows the code in each case:
- The defaults apply only to an absent field. An explicit `"username": ""` or `"username": null` is kept and then fails validation, even when the first name is present.
- An explicit `"role": null` or `"role": ""` is stored as it is. The role is never validated.
- The four optional fields are stored as `null` when they are absent, `null` or `""`.
- Validation runs before any client is built, so a 400 makes no remote call at all. A 409 makes exactly one call, the listing.

## Model

| member | source | states |
|---|---|---|
| Password.RandomPassword | index.js:3-6 | The password has exactly one character per draw, and character i is the alphabet entry chosen by draw i. |
| Password.AlphabetWellFormed | index.js:4 | The alphabet has 62 characters. Each one is an upper- or lower-case letter, a digit 2-9 or one of `!@#$%`, and none is ambiguous. An independent position function finds every character at its own index. |
| Password.AlphabetDistinct | index.js:4 | No character occurs twice in the alphabet. |
| Password.PasswordIsSafe | index.js:3-5 | Every character of a generated password is safe: none of `0`, `O`, `1`, `l`, `I`. |
| Password.DrawsRoundTrip | index.js:5 | The draws can be read back from the password they produced. |
| Password.PasswordInjective | index.js:5 | Different draws give different passwords. |
| Request.Truthy | index.js:25 | A field is truthy exactly when it is none of the falsy values the body can hold: absent (`undefined`), `null` and `""`. |
| Request.HasRequiredFields | index.js:25 | The check passes exactly when email, first name, last name, username and employee id are all present non-empty strings. |
| Request.ApplyDefaults | index.js:11-22 | `username` becomes `firstName` and `role` becomes `"staff"` only when that field is absent. A present value, `null` and `""` included, is kept. No other field changes. |
| Request.AcceptedIff | index.js:11-27 | A body passes validation exactly when email, first name, last name and employee id are non-empty strings and the username is a non-empty string or absent. |
| Request.ExplicitUsernameKept | index.js:15-25 | An explicitly supplied username is never replaced. A falsy one therefore fails validation. |
| Request.EmptyRequestRejected | index.js:10-27 | A missing body (`{}`) fails validation. |
| Profile.OrNull | index.js:82-87 | The fallback to `null` stores `null` exactly when the field is falsy. Otherwise it stores the supplied non-empty string. |
| Profile.BuildProfile | index.js:75-88 | The profile has status "onboarding" and the new account's userId. It has the request's five required strings and the role as supplied or defaulted. Each optional field is null exactly when the request's field is falsy, and is the supplied value otherwise. |
| Profile.StaffPermissions | index.js:89-97 | There are four distinct grants. Every grant goes to the new user for reading or to the admin team. |
| Profile.StaffPermissionsAccess | index.js:89-97 | The grants allow an action exactly when it is a read by the new user, or any of read, update and delete by the team whose id is "admin". |
| Platform.CountWithEmployeeId | index.js:39-45 | The listing's total is at most the number of documents. It is zero exactly when no document has that employee id. |
| Platform.ListStep | index.js:39-43 | The listing changes nothing but the call log, which gains the listing. It fails exactly when the platform's listing fails, with that error's message. Otherwise its total is zero exactly when no document has that employee id. |
| Platform.CreateAccountStep | index.js:52-57 | A created account gets an id that no existing account or document has (accounts and documents draw from one counter in this model). The id counter never goes back, and every id stays below it. |
| Platform.CreateDocumentStep | index.js:71-98 | A created document gets an id that no existing account or document has (one shared counter, as above). The id counter never goes back, and every id stays below it. |
| Platform.RecoveryStep | index.js:101-104 | The recovery call leaves accounts, documents and the id counter alone, and the call log gains it. It succeeds exactly when the platform's recovery call does not fail, and then the email is recorded as accepted for delivery. A failure carries the platform's message and records nothing. |
| Platform.Backend.ListDocuments | index.js:39-43 | It returns the listing total or the error. Only the call log changes. The state stays well formed: every id is below the counter. |
| Platform.Backend.CreateAccount | index.js:52-57 | It appends one account under a fresh id, or fails with the error. An already-registered email fails. The state stays well formed: every id is below the counter. |
| Platform.Backend.CreateDocument | index.js:71-98 | It appends one document with the given fields and permissions under a fresh id, or fails with the error. The state stays well formed: every id is below the counter. |
| Platform.Backend.CreateRecovery | index.js:101-104 | It records the recovery email as accepted for delivery, or fails with the error. The state stays well formed: every id is below the counter. |
| Handler.ServerError | index.js:107-108 | It gives status 500 with the error's message, or exactly "Server error" when that message is empty. The message is never empty. |
| Handler.Onboard | index.js:8-110 | A body that cannot be read is a 500 with the reader's message, and the state is unchanged. 400 exactly for a body missing a required field after defaulting, and then the state is unchanged. 409 exactly when the listing succeeds and finds the employee id, and then only that call is logged. Success exactly when the request is valid and new, the email is free and no call fails. Every other outcome is a 500 with a non-empty message. At most one account and one document are added, and a new document always belongs to the new account. |
| Handler.Enrol | index.js:49-106 | This is what follows the uniqueness guard. It succeeds exactly when none of the three calls fails and the email is free; otherwise it is a 500 with a non-empty message. At most one account and one document are added, a new document belongs to the new account, and both new ids are fresh. The two new ids also differ from each other; that follows from the model's single id counter and is not something the platform promises. |
| Handler.Handle | index.js:8-110 | The imperative handler returns the response and leaves the platform in the state that `Onboard` gives. A well-formed platform stays well formed. |
| Handler.OnboardCreated | index.js:49-106 | On success, exactly one account is added: the email, a 24-character password over the safe alphabet and the first name as display name. Exactly one document is added: the built profile with status "onboarding", linked to that account, with the four grants. One recovery email is added. The response carries the two new ids. |
| Handler.OnboardStoresDefaults | index.js:11-22 | The stored username is the first name only when the request has no username. The stored role is "staff" only when the request has no role. Otherwise both are kept as supplied. |
| Handler.ListingFailureChangesNothing | index.js:39-43 | When the uniqueness listing fails, the response is a 500 with that error's message. The listing is the only call made, and nothing else in the state changes. |
| Handler.AccountFailureCreatesNothing | index.js:52-57 | When account creation fails, the response is a 500 with that error's message, and no account, document or recovery is created. |
| Handler.DocumentFailureOrphansAccount | index.js:71-98 | When document creation fails, the response is a 500 with that error's message. Exactly the request's account stays behind, without a profile: its email, the 24-character temporary password and the first name as display name, under the next id. No document or recovery is added. |
| Handler.ResubmitAfterOrphanIsRefused | index.js:52-57 | After a failed document creation, sending the same request again is refused at account creation with the platform's already-registered error, because the orphaned account holds the email. |
| Handler.RecoveryFailureKeepsProfile | index.js:101-104 | When the recovery call fails, the response is a 500 with that error's message, although the account and the profile exist. Exactly the request's account is added, plus exactly one document: the built profile linked to that account, with the four grants. No recovery is recorded. |
| Handler.OnboardPassesGuard | index.js:39-49 | A valid request for a new employee id, with a working listing, goes on to account creation on a state that differs from the original only in its call log. |
| Handler.OnboardFreshIds | index.js:52-74 | The new account and document get ids that no earlier account or document has. The two ids also differ, because the model draws both from one counter; the platform makes no such promise. Every id stays below the counter. |
| Handler.SecondSubmissionConflicts | index.js:39-47 | After a success, the same request is refused with 409 "Employee already exists". |
| Handler.AnnLeeScenario | index.js:11-106 | Ann Lee, employee E100, on a project without E100 and without her email: the call succeeds. The stored profile has username "Ann", role "staff", status "onboarding" and departmentId null. |
| Handler.SameRequestTwice | index.js:39-106 | On a real `Backend` with no faults, the first call returns success (status 200) and the second returns 409. |

## Left out

- `JSON.parse` is not modelled. Its outcome is the input `Body`. A body it rejects, or a body of `null` (destructuring it throws), is `Malformed(message)` and yields a 500 with that message. A JSON number, string, boolean or array has none of the fields, so it is `Parsed(EmptyRequest)`, like a missing body.
- Request.ApplyDefaults: fields are absent, `null` or strings only. JSON numbers, booleans, arrays and objects in a field, and their truthiness, are not modelled.
- The Appwrite SDK itself is not modelled (`Client`, `Account`, `Databases`, `Teams`, `Query`, `Permission`, `Role`, `ID.unique`). It is foreign code. `Backend` stands in for it. Its calls fail only through the failure-injection flags, plus the one platform rule the handler depends on: an already-registered email is refused. The text of that error message belongs to the platform and is not part of this repository.
- Faults are fixed per project: a kind of call either always fails or never does. Timeouts and hanging calls are not modelled.
- Ids are natural numbers drawn from one counter shared by accounts and documents, not the platform's random strings. Their freshness is what the handler relies on. That an account id never equals a document id comes only from the shared counter, and the platform does not promise it.
- `Math.random()` and the floating-point step that turns it into an index are not modelled. The randomness is a supplied sequence of 24 draws, each below 62. The handler always calls `randomPassword()` with its default length, so `Handle` and `Onboard` require exactly 24 draws.
- Environment variables are not modelled: the endpoint, project, key, database and collection ids. The reset URL built from `WEB_APP_URL` is not modelled either, and neither is the unused `Teams` client. Configuration errors surface only as failed calls.
- The admin team-membership block is commented out in the source and is not modelled.
- Two invocations that race between the uniqueness listing and the document creation are not modelled. Each invocation runs alone against the state.
- Email delivery behind `createRecovery` is not modelled. The model records only that a message was accepted.
- The collection's own attribute schema on the platform is not modelled (for example, whether it accepts a `null` role). Neither is the platform's password policy.
