# Ra Kart Racing: closings and pilot provisioning, modelled in Dafny

Ra Kart Racing is a small web app for a kart team. It keeps each pilot's
monthly fee and the month's expenses and reimbursements. On each pilot's
closing day it closes the month: it totals the ledger, generates a PDF
report, stores the report in the `fechamentos` bucket and records the closing
in `closing_history`. An administrator registers pilots through a Supabase
edge function. That function creates the pilot's login, its `pilots` row and
the `profiles` row that links the two, and undoes what it created when a later
step fails.

This project models that core:

- `ledger.dfy` (module `Ledger`) covers `DB.calculateTotals`: a left fold over
  the expense and reimbursement rows, proved equal to the mathematical sum.
- `closing.dfy` (module `Closing`) covers the rest of `js/db.js` that changes
  state, as the class `Store`:
  - `addOrUpdatePilot`;
  - `performClosing`, specified by the function `Plan` and applied by `Apply`;
  - `checkAutoClosing`, specified by the prefix fold `Scan`;
  - the hourly timer of `js/app.js` that starts the scan.
- `provisioning.dfy` (module `Provisioning`) holds what both edge functions
  share:
  - the request and response;
  - the messages;
  - the class `Backend`: the auth users, the `pilots` and `profiles` tables,
    and a ghost trace of every call made.
- `create_pilot_with_user.dfy` (module `CreatePilotWithUser`) is the current
  handler. The method `Handle` is proved to do what the function `Serve`
  describes, and lemmas about `Serve` state what the handler promises.
- `delete_pilot_full.dfy` (module `DeletePilotFull`) is the older edition of
  the same handler, kept under that directory name, with lemmas on how the two
  editions differ.
- `strings.dfy` and `wrappers.dfy` hold `includes`/`startsWith` on strings,
  and the `Option`, `Result` and `StepOutcome` types.

Amounts are integer cents. Clocks, UUIDs, the PDF generator and the answer of
every backend call are parameters:
- a `StepOutcome` (succeeds, or raises with a message);
- an `AuthReply` for user creation;
- an `InsertReply` for the pilot insert.

## Model

| member | source | states |
|---|---|---|
| Ledger.Reduce | js/db.js:105-106 | the `reduce` fold started at `acc` equals `acc` plus the sum of the amounts |
| Ledger.CalculateTotals | js/db.js:104-114 | total expenses and reimbursements are the sums of their rows; the month's total is fee + expenses − reimbursements |
| Ledger.SumPermutation | js/db.js:105-106 | rows in any order (equal multisets) have the same sum |
| Ledger.TotalsWithoutEntries | js/db.js:104-114 | with no rows the totals are 0, 0 and the base fee |
| Ledger.TotalsAddExpense | js/db.js:105-107 | one more expense raises the expenses and the month's total by its amount; reimbursements unchanged |
| Ledger.TotalsAddReimbursement | js/db.js:106-107 | one more reimbursement raises the reimbursements and lowers the month's total by its amount |
| Ledger.TotalsIgnoreOrder | js/db.js:104-114 | the totals do not depend on the order of the rows |
| Ledger.TotalsNonNegative | js/db.js:105-106 | non-negative rows give non-negative expense and reimbursement totals |
| Closing.ReplaceSpaces | js/db.js:215 | same length; every space becomes `_`, every other character is kept |
| Closing.UploadPath | js/db.js:215 | the path is `id/month_` followed by the name, has no space after `id/month_`, and ends in `.pdf` |
| Closing.UploadPathSeparatesPilots | js/db.js:215 | two different pilot ids without `/` never share a report path |
| Closing.UploadPathSeparatesMonths | js/db.js:215 | two different months (same length) of one pilot never share a report path |
| Closing.Matching | js/db.js:197-205 | exactly the rows whose id is the requested one |
| Closing.Fetch | js/db.js:197-207 | the fetch succeeds iff the call succeeds and exactly one row has the id, and then returns that row; a failed call gives its message, a wrong row count the `.single()` error |
| Closing.Plan | js/db.js:191-239 | a closing ends normally iff it inserts its row; the row is of the requested pilot and month and points at the uploaded object; anything uploaded lies in the pilot's folder |
| Closing.Apply | js/db.js:217-236 | a closing appends its row, if any, after the old history, and stores its object, if any, under its path; every other object is kept and no other key appears |
| Closing.ClosingStepOrder | js/db.js:191-239 | a fetch, report or upload failure writes nothing and ends with that step's error (`Erro ao buscar dados do piloto para fechar: ` with the fetch error, the report's message, or `Erro ao fazer upload do PDF: ` with the upload's message); a history failure after a good upload leaves the object and writes no row; an object without a row means the insert failed |
| Closing.ClosingCompletes | js/db.js:191-239 | a closing whose fetch, report, upload and insert all succeed ends normally, stores the report under the pilot's path and inserts the row with the month's total |
| Closing.ClosingRecordsUpload | js/db.js:207-236 | the inserted row names the fetched pilot and the month, records the month's total, and points at the uploaded path |
| Closing.ClosedPilots | js/db.js:172 | an id is in the closed set iff some history row of the month carries it |
| Closing.DueOnlyOnClosingDay | js/db.js:176-178 | a pilot not closed in the month is due on its closing day and on no other day; a closed pilot is never due |
| Closing.Scan | js/db.js:175-188 | the scan keeps the old history as a prefix and removes no object |
| Closing.ScanAppendsNewRows | js/db.js:175-188 | the scan only appends to the history, exactly the rows `NewRows` lists |
| Closing.NewRowsAreDueClosings | js/db.js:172-188 | a row is new iff it is the row of a successful closing of a pilot whose day is today and who was not closed |
| Closing.NewRowsOfOpenPilots | js/db.js:172-178 | every new row is of the month and of a pilot not closed before |
| Closing.ScanTwiceClosesOnce | js/db.js:165-178 | a second scan of the month closes none of the pilots the first closed, whatever the outcomes |
| Closing.ScanWritesOnlyDueFolders | js/db.js:175-188 | every object the scan adds or overwrites lies in the folder of a due pilot |
| Closing.NewRowsDistinctPilots | js/db.js:175-188 | with unique pilot ids, the new rows are of distinct pilots |
| Closing.ScanKeepsOneClosingPerMonth | js/db.js:165-188 | a history with one row per pilot and month keeps that property after a scan |
| Closing.Updated | js/db.js:67-72 | the rows with the form's id take its name, category, fee, closing day and observations; an update keeps order, ids and ledger rows, and changes no other row |
| Closing.UpdateOfUnknownIdChangesNothing | js/db.js:67-72 | an update with an id no row has changes nothing |
| Closing.Store.SelectPilot | js/db.js:197-205 | answers `Fetch`: a failure, the "not one row" error, or the one row with that id |
| Closing.Store.Upload | js/db.js:217-224 | on success the object is stored (or overwritten) under the path; on failure nothing changes |
| Closing.Store.InsertHistory | js/db.js:227-236 | on success exactly the row is appended; on failure nothing changes |
| Closing.Store.AddOrUpdatePilot | js/db.js:56-84 | an error is rethrown with nothing changed; a form with an id updates those rows; one without appends a pilot with empty ledger, unless the generated id is taken; unique pilot ids stay unique |
| Closing.Store.PerformClosing | js/db.js:191-239 | the outcome and the new history and bucket are those of `Plan` applied to the old ones |
| Closing.Store.CheckAutoClosing | js/db.js:154-189 | a failed query changes nothing; otherwise the new history and bucket are `Scan` over every pilot, with the month's closed set read first |
| Closing.Store.SchedulerTick | js/app.js:22-29 | without a session nothing changes; with one the tick is `CheckAutoClosing` |
| Provisioning.Password | supabase/functions/create-pilot-with-user/index.ts:54 | a given password is used as is; otherwise the password is the UUID's first 12 characters (all of it when shorter) |
| Provisioning.TemporaryPasswordShownIffGenerated | supabase/functions/create-pilot-with-user/index.ts:127-128 | the success message names a temporary password iff it was generated, and then contains it, for every name and email whose confirmation does not itself hold the announcement |
| Provisioning.DuplicateEmailMessageInUse | supabase/functions/create-pilot-with-user/index.ts:65-66 | the duplicate-email message contains the text the status mapping looks for |
| Provisioning.MessagesWithoutConflict | supabase/functions/create-pilot-with-user/index.ts:70-72 | the "no id" message does not contain that text |
| Provisioning.Backend.CreateUserCall | supabase/functions/create-pilot-with-user/index.ts:57-61 | records the call; a created user gets the next id, which is fresh; no id or an error adds no user |
| Provisioning.Backend.InsertPilotCall | supabase/functions/create-pilot-with-user/index.ts:79-90 | records the call; an inserted row gets the next, fresh id; otherwise nothing is added |
| Provisioning.Backend.InsertProfileCall | supabase/functions/create-pilot-with-user/index.ts:104-110 | records the call; on success the profile is stored under the user's id |
| Provisioning.Backend.DeletePilotCall | supabase/functions/create-pilot-with-user/index.ts:116 | records the call; on success the pilot row is removed |
| Provisioning.Backend.DeleteUserCall | supabase/functions/create-pilot-with-user/index.ts:95 | records the call; on success the user is removed |
| CreatePilotWithUser.Status | supabase/functions/create-pilot-with-user/index.ts:152 | an error status is 400, 409 or 500; 409 exactly when the message reports an email in use, and 400 exactly when it does not but names incomplete data or a wrong method; every other message, such as a failed insert, is a 500 |
| CreatePilotWithUser.MethodNotAllowedIs400 | supabase/functions/create-pilot-with-user/index.ts:37-40 | a non-POST request is answered with 400 |
| CreatePilotWithUser.IncompleteDataIs400 | supabase/functions/create-pilot-with-user/index.ts:45-49 | an incomplete payload is answered with 400 |
| CreatePilotWithUser.MissingEnvironmentIs500 | supabase/functions/create-pilot-with-user/index.ts:12-18 | missing service-role variables are answered with 500 |
| CreatePilotWithUser.ValidPayload | supabase/functions/create-pilot-with-user/index.ts:45-49 | a payload that passes has pilot and user data and yields a pilot row with a name and numeric fee and closing day, and an email |
| CreatePilotWithUser.NewPilotRow | supabase/functions/create-pilot-with-user/index.ts:81-87 | the inserted row keeps the name, fee and closing day; an empty category or empty observations become `null`, filled-in ones are kept |
| CreatePilotWithUser.IsDuplicateEmail | supabase/functions/create-pilot-with-user/index.ts:65 | an auth message holding `duplicate key value` or `already registered` is a taken email; `DuplicateEmailConflict` states that it then makes one call, changes nothing and answers 409 |
| CreatePilotWithUser.AuthErrorMessage | supabase/functions/create-pilot-with-user/index.ts:63-69 | a duplicate is reported as the email in use; any other error starts with the login-error text (so the catch block does not delete a user for it) and carries the service's message |
| CreatePilotWithUser.DuplicateEmailIs409 | supabase/functions/create-pilot-with-user/index.ts:63-68 | an auth error about a duplicate key or an already registered email is answered with 409 |
| CreatePilotWithUser.ReachesAuth | supabase/functions/create-pilot-with-user/index.ts:27-51 | a request reaches the user creation iff it is a POST with a parsed, valid payload and a configured environment; `NothingBeforeValidation` and `CallOrder` state what happens on each side of that gate |
| CreatePilotWithUser.NewAccount | supabase/functions/create-pilot-with-user/index.ts:54-61 | the user asked for carries the request's email, unconfirmed, with the given password or else at most 12 characters drawn from the UUID |
| CreatePilotWithUser.Rejection | supabase/functions/create-pilot-with-user/index.ts:37-51 | the gates run in order: a wrong method and an incomplete payload give a 400, a missing environment a 500, an unparsable body its parser's message |
| CreatePilotWithUser.InsertPilotAndProfile | supabase/functions/create-pilot-with-user/index.ts:77-123 | the tables, the calls and the error after steps 3 and 4 are those of `PilotSteps` |
| CreatePilotWithUser.RetriesRollback | supabase/functions/create-pilot-with-user/index.ts:138 | a message that starts with the login-error text never triggers the user's deletion |
| CreatePilotWithUser.AfterCatch | supabase/functions/create-pilot-with-user/index.ts:139-146 | the answered message starts with the error; a failed rollback lengthens it with the rollback's message, a successful one leaves it as it was |
| CreatePilotWithUser.CatchBlock | supabase/functions/create-pilot-with-user/index.ts:135-153 | the catch block deletes the user once more unless the error names the login creation; the user is gone exactly when that deletion ran and succeeded; the message starts with the error, contains a failed rollback's message and is the error alone otherwise; it never answers 201 and leaves pilots and profiles as they were |
| CreatePilotWithUser.PilotSteps | supabase/functions/create-pilot-with-user/index.ts:77-123 | steps 3 and 4 throw iff an insert fails: the pilot-insert error with the service's message (`ID não retornado` when no id came back) or the profile-link error with the service's message; without a throw the pilot and the profile linking it to the user are added; with one no profile is |
| CreatePilotWithUser.Provision | supabase/functions/create-pilot-with-user/index.ts:53-153 | the first call creates an unconfirmed user; 201 iff the user is created with an id and both inserts succeed, and then exactly the user, the pilot and the linking profile are added; a failed user creation makes no other call and changes nothing; every other answer is an error |
| CreatePilotWithUser.CreateAndLink | supabase/functions/create-pilot-with-user/index.ts:53-153 | the tables, the calls and the response from the user creation on are those of `Provision` |
| CreatePilotWithUser.Serve | supabase/functions/create-pilot-with-user/index.ts:23-155 | a request makes calls iff it is no preflight and passes validation; without calls nothing changes |
| CreatePilotWithUser.Handle | supabase/functions/create-pilot-with-user/index.ts:23-155 | the new tables, the calls appended and the response are those `Serve` gives for the next ids |
| CreatePilotWithUser.NothingBeforeValidation | supabase/functions/create-pilot-with-user/index.ts:27-51 | a preflight or a request failing validation makes no call and changes nothing; 400 for method and payload, 500 for configuration |
| CreatePilotWithUser.PilotStepsCallOrder | supabase/functions/create-pilot-with-user/index.ts:77-123 | the pilot insert comes first; a profile insert second, only after an inserted pilot, linking the user to it; a pilot deletion only third, after a failed profile insert; the user's deletion last, exactly when a step failed, and after the pilot's deletion when there is one |
| CreatePilotWithUser.CallOrder | supabase/functions/create-pilot-with-user/index.ts:53-111 | the first call creates the user (email unconfirmed); the pilot insert follows only a created user; a profile follows only an inserted pilot and links user and pilot |
| CreatePilotWithUser.ErrorResponses | supabase/functions/create-pilot-with-user/index.ts:135-153 | every non-success response carries the error and the status its message maps to |
| CreatePilotWithUser.CreatedIffAllStepsSucceed | supabase/functions/create-pilot-with-user/index.ts:57-133 | 201 iff all three steps succeed; the tables then gain exactly the user, the pilot and the linking profile |
| CreatePilotWithUser.SuccessShowsGeneratedPassword | supabase/functions/create-pilot-with-user/index.ts:127-133 | on success the message shows the temporary password iff none was given, for every name and email whose confirmation does not itself hold the announcement |
| CreatePilotWithUser.DuplicateEmailConflict | supabase/functions/create-pilot-with-user/index.ts:63-67 | a duplicate email makes the one auth call, changes nothing and answers 409 |
| CreatePilotWithUser.PilotStepsOnFailure | supabase/functions/create-pilot-with-user/index.ts:91-123 | when steps 3 and 4 throw, the pilot and the user are removed unless their deletion failed |
| CreatePilotWithUser.FailureLeavesOnlyFailedRollbacks | supabase/functions/create-pilot-with-user/index.ts:91-148 | a failure leaves no profile; the pilot survives only after its deletion failed; the user survives only after its inline deletion failed and the catch block's retry failed or was skipped; with successful rollbacks, or a successful pilot deletion and catch-block retry, nothing changes |
| DeletePilotFull.MethodNotAllowedIs500 | supabase/functions/delete-pilot-full/index.ts:39 | a non-POST request is answered with 500 |
| DeletePilotFull.IncompleteDataIs500 | supabase/functions/delete-pilot-full/index.ts:44-46 | an incomplete payload is answered with 500 |
| DeletePilotFull.MissingEnvironmentIs500 | supabase/functions/delete-pilot-full/index.ts:22-24 | missing variables are answered with 500 |
| DeletePilotFull.ValidPayload | supabase/functions/delete-pilot-full/index.ts:44-46 | a payload that passes has pilot and user data and yields a pilot row with a name and a truthy fee and closing day, and an email |
| DeletePilotFull.NewPilotRow | supabase/functions/delete-pilot-full/index.ts:82-88 | the inserted row keeps every field as given, so it agrees with the newer edition's row on name, fee and day, and equals it when category and observations are filled in |
| DeletePilotFull.IsDuplicateEmail | supabase/functions/delete-pilot-full/index.ts:66 | only an auth message holding the duplicate-key text is a taken email; `DuplicateEmailConflict`, `DuplicateDetectionWidened` and `AlreadyRegisteredIsNoDuplicateKey` state its effect and how it differs from the newer test |
| DeletePilotFull.AuthErrorMessage | supabase/functions/delete-pilot-full/index.ts:63-70 | a duplicate key is reported as the email in use; any other error is a login error carrying the service's message |
| DeletePilotFull.Status | supabase/functions/delete-pilot-full/index.ts:152 | an error status is 409 or 500, and 409 exactly when the message reports an email in use |
| DeletePilotFull.ReachesAuth | supabase/functions/delete-pilot-full/index.ts:30-48 | a request reaches the user creation iff it is a POST with a parsed, truthy payload and a configured environment; `NothingBeforeValidation` and `CallOrder` state what happens on each side of that gate |
| DeletePilotFull.NewAccount | supabase/functions/delete-pilot-full/index.ts:53-60 | the user asked for carries the request's email, confirmed, with the given password or else at most 12 characters drawn from the UUID |
| DeletePilotFull.Rejection | supabase/functions/delete-pilot-full/index.ts:39-48 | a wrong method, an incomplete payload and a missing environment are all 500 here; an unparsable body answers with its parser's message |
| DeletePilotFull.InsertPilotAndProfile | supabase/functions/delete-pilot-full/index.ts:78-121 | the tables, the calls and the error after steps 3 and 4 are those of `PilotSteps`, where a failing rollback's error replaces the step's |
| DeletePilotFull.RetriesRollback | supabase/functions/delete-pilot-full/index.ts:138 | a message that starts with the user-creation error text never triggers the user's deletion |
| DeletePilotFull.CatchBlock | supabase/functions/delete-pilot-full/index.ts:135-153 | the catch block deletes the user once more unless the error names the user creation; the user is gone exactly when that deletion ran and succeeded; the message starts with the error, contains a failed rollback's message and is the error alone otherwise; it never answers 201 and leaves pilots and profiles as they were |
| DeletePilotFull.PilotSteps | supabase/functions/delete-pilot-full/index.ts:78-121 | steps 3 and 4 throw iff an insert fails; the error is that of a failing plain-await rollback (the pilot's deletion first, then the user's) when there is one, else the pilot-insert or profile-link error; without a throw the pilot and the linking profile are added; with one no profile is |
| DeletePilotFull.Provision | supabase/functions/delete-pilot-full/index.ts:51-153 | the first call creates a user with the email confirmed; 201 iff the user is created with an id and both inserts succeed, and then exactly the user, the pilot and the profile are added; a failed user creation makes no other call and changes nothing; every other answer is an error |
| DeletePilotFull.CreateAndLink | supabase/functions/delete-pilot-full/index.ts:51-153 | the tables, the calls and the response from the user creation on are those of `Provision` |
| DeletePilotFull.Serve | supabase/functions/delete-pilot-full/index.ts:28-155 | a request makes calls iff it is no preflight and passes validation; without calls nothing changes |
| DeletePilotFull.Handle | supabase/functions/delete-pilot-full/index.ts:28-155 | the new tables, the calls appended and the response are those `Serve` gives for the next ids |
| DeletePilotFull.NothingBeforeValidation | supabase/functions/delete-pilot-full/index.ts:30-48 | a preflight or a request failing validation makes no call and changes nothing; every such error is a 500 |
| DeletePilotFull.PilotStepsCallOrder | supabase/functions/delete-pilot-full/index.ts:78-121 | the pilot insert comes first; a profile insert second, only after an inserted pilot; a pilot deletion only third, after a failed profile insert; the user's deletion last, after a failed pilot insert or a successful pilot deletion |
| DeletePilotFull.CallOrder | supabase/functions/delete-pilot-full/index.ts:53-113 | the first call creates the user with the email confirmed; a profile follows only an inserted pilot and links the two |
| DeletePilotFull.ErrorResponses | supabase/functions/delete-pilot-full/index.ts:150-153 | every non-success response carries the error; 409 iff it reports an email in use, else 500 |
| DeletePilotFull.CreatedIffAllStepsSucceed | supabase/functions/delete-pilot-full/index.ts:56-133 | 201 iff all three steps succeed; the tables then gain exactly the user, the pilot and the profile |
| DeletePilotFull.DuplicateEmailConflict | supabase/functions/delete-pilot-full/index.ts:63-68 | a duplicate-key auth error changes nothing and answers 409 |
| DeletePilotFull.SuccessShowsGeneratedPassword | supabase/functions/delete-pilot-full/index.ts:125-133 | on success the message shows the temporary password iff none was given, for every name and email whose confirmation does not itself hold the announcement |
| DeletePilotFull.PilotStepsOnFailure | supabase/functions/delete-pilot-full/index.ts:92-121 | when steps 3 and 4 throw, the pilot survives only a failed deletion, the user only a failed rollback |
| DeletePilotFull.FailureLeavesOnlyFailedRollbacks | supabase/functions/delete-pilot-full/index.ts:92-148 | a failure leaves no profile; the pilot survives only after its deletion failed; the user survives only after an inline rollback failed and the catch block's retry failed or was skipped; with successful rollbacks, or a successful pilot deletion and catch-block retry, nothing changes |
| DeletePilotFull.ValidationAgainstLatest | supabase/functions/delete-pilot-full/index.ts:44 | for numeric fee and day, this edition accepts a payload iff the newer one does and both numbers are non-zero |
| DeletePilotFull.DuplicateDetectionWidened | supabase/functions/delete-pilot-full/index.ts:66 | every auth error this edition reports as a taken email is reported so by the newer edition |
| DeletePilotFull.AlreadyRegisteredNotDetected | supabase/functions/delete-pilot-full/index.ts:66-69 | the auth message `User already registered` is a 500 here and a 409 in the newer edition |
| DeletePilotFull.AlreadyRegisteredIsNoDuplicateKey | supabase/functions/delete-pilot-full/index.ts:66 | this edition does not see that message as a duplicate |

## Left out

- Dates and clocks are not modelled. The day of the month and the `YYYY-MM`
  month reference are parameters. The mismatch between the local day
  (`getDate`) and the UTC month (`toISOString`) near midnight is not
  modelled.
- The month window on the ledger rows (`created_at` between the first and the
  last day of the month) is not modelled. A pilot's rows are taken to be the
  month's rows already.
- `parseFloat`/`parseInt`, floating point and `NaN` are not modelled. Amounts
  and fees are exact integer cents. A missing amount makes the JavaScript
  total `NaN`; here it cannot occur.
- The PDF document is not modelled. `PDF.generateReport` is a parameter that
  returns bytes or an error. js/pdf.js is not part of this model.
- `DB.deletePilot`, `addExpense`, `addReimbursement` and the reads of js/db.js
  are single store calls with no logic of their own, and are not modelled.
- Row-level security, the login flow (js/auth.js), the UI (js/ui.js), CORS
  headers and the service worker are not part of this model. The hourly timer
  of js/app.js checks only that a session exists; the model keeps that and
  does not add an admin-role check.
- Errors from the backend are modelled as a raised error in every call. The
  supabase-js convention of returning `{ error }` is abstracted. This matters
  for the plain `await` rollbacks of the older edition: the model lets them
  throw.
- An auth reply without a user id is modelled as creating no account. The
  real service may have created one that the handler then cannot delete.
- The request body is a list of parsed fields. A body that parses to a
  non-object (so destructuring throws) is not modelled, and neither are a
  non-string name or email.
- Logging (`console.*`) is not modelled. Neither is the concurrency of two
  scans or two requests: each method runs to completion on its own.
- Closing.Store.CheckAutoClosing keeps the unused `wasClosed` flag but states
  nothing about it, because nothing reads it.
- Closing.Store.CheckAutoClosing closes a pilot only on the exact day
  `closingDate === today`. A closing day past the month's last day is never
  reached.
- Closing.UploadPath replaces only spaces in the pilot's name, as the code
  does. It does not strip other characters.
- Closing.Store.AddOrUpdatePilot: an update whose id matches no row silently
  changes nothing, as the code does. It is not a "not found" error.
