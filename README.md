# Climdo front end — a Dafny model of its client-side core

Climdo is a task manager with a Next.js front end, modelled here. The project covers the
parts of that front end that decide something:

- **API client** (`lib/api-client.ts`): the cookie lookup and the request interceptor that
  attaches the CSRF token. It also covers the error classifier and the single-flight token
  refresh: one refresh at a time, with the other 401s parked in `failedQueue` and replayed
  afterwards.
- **Request wrappers** (`hooks/use-api.ts`): `get`/`post`/`patch`/`put`/`del` and their shared
  `handleError`.
- **Providers**: the group store (`components/providers/group-provider.tsx`) and the
  authentication provider (`components/providers/auth-provider.tsx`).
- **Forms**: the validation, payload and submit logic of the login page, the register page
  and the two create dialogs.
- **Lists and stats**: the filters, buckets and stat values of the dashboard, trash,
  completed, upcoming and groups pages.
- **Cards**: the actions of the task card and of the two group cards.

Each source file is one Dafny module with the same role. Five shared modules support them:

- `Wrappers`: `Option` and `Result`.
- `Js`: JavaScript string semantics. It covers `trim` over the ECMAScript whitespace set,
  UTF-16 `.length`, `split`/`join`, `parseInt`, number-to-text and `Math.round` of a percentage.
- `Seqs`: filter, find, subsequence and insertion sort.
- `Types`: the records of `types/index.ts`.
- `Http`: the request and error shapes.

Where the source changes state step by step, the model is a `class` whose methods are
specified against pure functions. This covers the client object, the group store, the auth
provider, the page and dialog forms and the card flags. Where the source only computes
(filters, classifiers, payloads), the model is functions and lemmas.

Several inputs become parameters:

- **Server replies** are `Result` values. An `Err` carries what was thrown: an axios error
  with its code, config and response, or a plain `Error`.
- **Time**: the current time, local midnight, the weekday and the calendar day of a
  timestamp are parameters.
- **The cookie jar** is the `document.cookie` string.

## Model

| member | source | states |
|---|---|---|
| ApiClient.RowValue | lib/api-client.ts:176 | the text after the first `=` of an entry, up to the next `=`; absent when that text is empty; a value is never empty and never holds `=` |
| ApiClient.GetCookie | lib/api-client.ts:172-177 | a value is found only in an entry that starts with `name=`; it is non-empty and has no `=`; with no such entry the result is absent |
| ApiClient.GetCSRFToken | lib/api-client.ts:164-166 | the access-scoped token when the `csrf_access_token` cookie holds one: never empty, never holding `=` |
| ApiClient.GetCSRFRefreshToken | lib/api-client.ts:168-170 | the refresh-scoped token when the `csrf_refresh_token` cookie holds one: never empty, never holding `=` |
| ApiClient.EntryMatchesOnlyItsName | lib/api-client.ts:175 | an entry `n=v` of plain names passes the `startsWith(name + "=")` test exactly when `n` is `name`, so a longer name that extends `name` never matches |
| ApiClient.RowValueOfEntry | lib/api-client.ts:176 | for a plain pair `n=v` the value read back is `v`, or absent when `v` is empty |
| ApiClient.FindInRows | lib/api-client.ts:174-175 | `.find` over the entries of a jar of plain pairs returns the entry of the first pair with that name |
| ApiClient.GetCookieOfCookieString | lib/api-client.ts:172-177 | for a cookie string built from plain pairs, `getCookie(name)` is the value of the first pair called `name` (absent when there is none or it is empty) |
| ApiClient.GetCookieCutsAtEquals | lib/api-client.ts:176 | a value that itself contains `=` is cut at it: `name=v=w` reads back as `v` |
| ApiClient.WithCsrf | lib/api-client.ts:72-75 | `X-CSRF-TOKEN` is set to the token; every other header is kept with its value |
| ApiClient.Resend | lib/api-client.ts:70-76 | a re-issued request keeps its identity, URL and retry marker; its headers are the old ones with the token replaced |
| ApiClient.InterceptHeaders | lib/api-client.ts:36-42 | when the access-token lookup is non-null, `X-CSRF-TOKEN` becomes that value and every other header is kept; otherwise the headers are unchanged |
| ApiClient.Intercept | lib/api-client.ts:36-42 | the request interceptor changes only the headers of a request, in the way `InterceptHeaders` states |
| ApiClient.RefreshCallHeaders | lib/api-client.ts:132-135 | the refresh call's headers hold exactly `X-CSRF-TOKEN`, set to the refresh-token lookup or `""` |
| ApiClient.RefreshHeadersAsWritten | lib/api-client.ts:132-137 | what the refresh call actually sends once the request interceptor has run: only `X-CSRF-TOKEN`, holding the access token when that cookie is set and the refresh-token header otherwise |
| ApiClient.RefreshRequest | lib/api-client.ts:132-137 | the refresh call as sent: `/auth/refresh`, the as-written headers, and no `_retry` marker |
| ApiClient.CorrectedRefreshRequest | lib/api-client.ts:132-137 | the refresh call as intended: `/auth/refresh` with the refresh-token header, marked so the response interceptor does not park it |
| ApiClient.RefreshCallCarriesAccessToken | lib/api-client.ts:36-42 | as written, when the access-token cookie is set, the refresh call's `X-CSRF-TOKEN` is the access token |
| ApiClient.AccessAndRefreshNamesArePlain | lib/api-client.ts:164-170 | the two cookie names hold neither `;` nor `=` |
| ApiClient.BothTokensAccessLookup | lib/api-client.ts:164-166 | in the jar `csrf_access_token=A; csrf_refresh_token=R` the access lookup gives `A` |
| ApiClient.BothTokensRefreshLookup | lib/api-client.ts:168-170 | in the same jar the refresh lookup gives `R` |
| ApiClient.RefreshCallCounterexample | lib/api-client.ts:132-135 | for that jar the intended refresh header is `R`, while the call as written sends `A` |
| ApiClient.RefreshToken | lib/api-client.ts:130-148 | the refresh succeeds exactly when the call succeeded and the access cookie is then non-empty, and returns that token; a failed call passes its AxiosError on; a missing token gives `Error("Failed to get new CSRF token")` |
| ApiClient.Characters | lib/api-client.ts:102 | `Object.values` of a string: one single-character text per code point, in order |
| ApiClient.ClientNotices | lib/api-client.ts:98-128 | at most one notice: the validation notice for 400, the network notice with no response, the server notice for 500 and above; none exactly when a response came back with a status other than 400 and below 500 |
| ApiClient.FlattenOfSingleTexts | lib/api-client.ts:101-106 | when every message value is a single text, the flattened list is those texts in key order |
| ApiClient.OnError | lib/api-client.ts:51-92 | an error off the refresh path is classified and rejected with the state unchanged; a qualifying 401 during a refresh is appended to the queue; otherwise its request is marked `_retry`, the flag is set and the refresh call goes out as written (`RefreshRequest`); consistency is preserved |
| ApiClient.Replays | lib/api-client.ts:150-162 | one re-issued request per parked request, in queue order, each with the new token |
| ApiClient.Settle | lib/api-client.ts:65-87 | once `refreshToken()` returns or throws, `isRefreshing` is false and nothing is suspended. On success the queue is replayed, then the suspended request, and the queue is emptied. On failure the suspended request is rejected with the refresh error and the refresh call's notices, and the queue is kept |
| ApiClient.ReissuedRequestsCarryToken | lib/api-client.ts:66-78 | after a successful refresh, all queued requests plus the original are re-issued; each carries the new token and keeps its other headers, and the original keeps its marker |
| ApiClient.ReissuedOriginalIsNotRetried | lib/api-client.ts:62 | a 401 on the re-issued original does not enter the refresh path again |
| ApiClient.ReissuedParkedMayRefreshAgain | lib/api-client.ts:151-159 | a re-issued parked request is unmarked, so a 401 on it enters the refresh path again |
| ApiClient.RunErrors | lib/api-client.ts:51-92 | a run of failed responses gives one reaction per response |
| ApiClient.Qualifying | lib/api-client.ts:55 | the responses of a run that enter the refresh path, each with a request |
| ApiClient.Waiting | lib/api-client.ts:56-59 | the qualifying responses that are parked: all of them during a refresh, all but the first otherwise |
| ApiClient.RunKeepsConsistent | lib/api-client.ts:55-63 | a run preserves consistency, and a refresh is in flight afterwards exactly when one was before or some response qualified |
| ApiClient.RunStartsAtMostOne | lib/api-client.ts:55-63 | a run starts exactly one refresh when none was in flight and something qualified, and none otherwise; the rejected responses are exactly those off the refresh path |
| ApiClient.RunParksInOrder | lib/api-client.ts:56-59 | after a run the queue is the old queue followed by the parked requests in arrival order |
| ApiClient.SingleFlight | lib/api-client.ts:55-63 | single flight: at most one refresh starts, the other qualifying 401s are parked in order, every other error is rejected, and consistency holds |
| ApiClient.OneRefreshForConcurrent401s | lib/api-client.ts:55-63 | N concurrent 401s on an idle client start exactly one refresh, for the first of them, and park the other N-1 in order |
| ApiClient.ParkedRequestsWaitForNextRefresh | lib/api-client.ts:79-87 | a failed refresh leaves the queue untouched; its requests are replayed first when a later refresh succeeds |
| ApiClient.RefreshOutcome | lib/api-client.ts:51-92 | the refresh call's failure first passes the same response interceptor: a qualifying 401 on it is parked and the attempt stalls with the flag still set; any other failure is rejected with its notices and the attempt settles as with `Settle`; a success settles as with `Settle` on `refreshToken`'s result |
| ApiClient.RefreshCall401Stalls | lib/api-client.ts:55-66 | as written, a 401 on the refresh call parks it behind its own refresh: the flag stays set, no later run of errors starts a refresh, and every later qualifying 401 is parked |
| ApiClient.CorrectedRefreshCallSettles | lib/api-client.ts:65-87 | with the corrected refresh call, any failure of it rejects the suspended request with its error and notices, clears the flag and keeps the queue |
| ApiClient.APIClient.constructor | lib/api-client.ts:13-18 | a new client is not refreshing and has an empty queue |
| ApiClient.APIClient.OnResponseError | lib/api-client.ts:51-92 | the interceptor's new state and reaction are those of `OnError` on the old state, including the as-written refresh call, and the object invariant is kept |
| ApiClient.APIClient.OnRefreshed | lib/api-client.ts:150-162 | the loop re-issues exactly `Replays` of the old queue with the new token, and leaves the queue empty |
| ApiClient.APIClient.OnRefreshSettled | lib/api-client.ts:65-87 | the new state and outcome are those of `RefreshOutcome`: a failed refresh call is handed to this client's own response interceptor first, and stalls the attempt when that parks it |
| UseApi.HandleError | hooks/use-api.ts:8-41 | checks in the order timeout, 404, 403, no response, other, with the notice each shows. The custom message is preferred for 404 and for the generic case. No notice exactly when there is no timeout code and no response, and then `Error("Backend server is not available")` is thrown. Otherwise the error is rethrown, so a throw always follows |
| UseApi.Call | hooks/use-api.ts:43-96 | a wrapper returns a successful reply unchanged with no notice; a failure gets `handleError`'s notice and ends in its throw |
| UseApi.CallersNeverSeeFallback | hooks/use-api.ts:29-40 | a caller's `err instanceof Error ? err.message : fallback` never yields the fallback |
| UseApi.ServerErrorAnnouncedTwice | hooks/use-api.ts:32-37 | a 5xx outside the refresh path gets the client's server notice and the wrapper's generic notice |
| UseApi.NetworkErrorAnnouncedOnce | hooks/use-api.ts:29-31 | a request with no response gets only the client's network notice and reaches the caller as the backend-down error |
| GroupProvider.Appended | components/providers/group-provider.tsx:56 | the new group is added at the end, with the old groups kept in order before it |
| GroupProvider.RemoveById | components/providers/group-provider.tsx:70 | no group with the id remains, every other group remains, and nothing new appears |
| GroupProvider.RemoveByIdKeepsOrder | components/providers/group-provider.tsx:70 | the remaining groups keep their order (a subsequence) |
| GroupProvider.RemoveUnknownId | components/providers/group-provider.tsx:70 | deleting an id no group has changes nothing |
| GroupProvider.Overlay | components/providers/group-provider.tsx:86 | `{ ...group, ...updatedGroup }`: each field is the reply's when present, the group's otherwise |
| GroupProvider.OverlayLaws | components/providers/group-provider.tsx:86 | an empty reply changes nothing; applying the same reply twice is the same as once |
| GroupProvider.MergeById | components/providers/group-provider.tsx:84-88 | length and order are kept; groups with the id are overlaid and all others are unchanged |
| GroupProvider.FindById | components/providers/group-provider.tsx:99 | the first group with the id, or absent exactly when no group has it |
| GroupProvider.FindAfterMerge | components/providers/group-provider.tsx:84-99 | after a merge whose reply keeps the id, the lookup finds the overlaid first match |
| GroupProvider.FindAfterRemove | components/providers/group-provider.tsx:70-99 | after a delete no group with that id is found |
| GroupProvider.GroupProvider.constructor | components/providers/group-provider.tsx:30-32 | the store starts with no groups, loading, and no error |
| GroupProvider.GroupProvider.FetchGroups | components/providers/group-provider.tsx:37-48 | on success the list is the server list and the error is cleared. On failure the list is kept and the error is the thrown message or "Failed to fetch groups". Loading ends either way and nothing is rethrown |
| GroupProvider.GroupProvider.CreateGroup | components/providers/group-provider.tsx:51-62 | on success the returned group is appended; on failure the list is kept and the error is set; loading ends |
| GroupProvider.GroupProvider.DeleteGroup | components/providers/group-provider.tsx:65-76 | on success every group with the id is removed and the others keep their order; on failure the list is kept; loading ends |
| GroupProvider.GroupProvider.UpdateGroup | components/providers/group-provider.tsx:79-95 | on success the reply is merged into the groups with the id; on failure the list is kept; loading ends |
| GroupProvider.GroupProvider.GetGroupById | components/providers/group-provider.tsx:98-100 | a group with the id from the store, or absent exactly when there is none; it reads the state and changes nothing |
| AuthProvider.WrapperBackendErrorIsRecognised | components/providers/auth-provider.tsx:57 | the wrappers' backend-down error would pass the provider's "Backend server" test; the provider calls the client directly, so this error never reaches that test and the branch is not reached from the real client |
| AuthProvider.AuthProvider.constructor | components/providers/auth-provider.tsx:27-28 | no user, loading |
| AuthProvider.AuthProvider.CheckAuth | components/providers/auth-provider.tsx:30-44 | the mount check stores the returned user on success, keeps the user on failure, and ends loading either way |
| AuthProvider.AuthProvider.Login | components/providers/auth-provider.tsx:49-64 | on success the user is the reply's user or `{username}`. A "Backend server" failure gives the user `{username}` and is not rethrown. Any other failure is rethrown with the user unchanged |
| AuthProvider.AuthProvider.Register | components/providers/auth-provider.tsx:66-76 | the state is untouched; a failure is rethrown exactly when it is not a "Backend server" failure |
| AuthProvider.AuthProvider.Logout | components/providers/auth-provider.tsx:78-86 | the user is cleared whatever the logout call returned |
| LoginPage.WithField | app/login/page.tsx:152 | only the named field changes |
| LoginPage.FormErrors | app/login/page.tsx:103-116 | the username error exactly when the trimmed username is empty; the password error exactly when the password is `""`; each with its message |
| LoginPage.ValidIffBothPresent | app/login/page.tsx:103-116 | the form validates exactly when the trimmed username is non-empty and the password is non-empty |
| LoginPage.BlankUsernameOnly | app/login/page.tsx:106-112 | a blank username is refused, while a password of one space passes |
| LoginPage.ShowsFormAsWritten | app/login/page.tsx:193 | the gate as written shows the form only when loading is over and a user is signed in |
| LoginPage.ShowsForm | app/login/page.tsx:193 | the intended gate shows the form only when loading is over and nobody is signed in |
| LoginPage.FormNeverUsable | app/login/page.tsx:193 | as written, whoever sees the form is redirected, and a signed-out visitor is never shown it |
| LoginPage.FormShownToSignedOutVisitor | app/login/page.tsx:29-33 | with the intended gate the form is shown exactly to a signed-out visitor once loading is over, and nobody shown it is redirected |
| LoginPage.LoginPage.constructor | app/login/page.tsx:18-24 | an empty form with no errors, not loading |
| LoginPage.LoginPage.ValidateForm | app/login/page.tsx:103-116 | the error map becomes `FormErrors` of the form, and the result is true exactly when it is empty |
| LoginPage.LoginPage.HandleInputChange | app/login/page.tsx:151-156 | only the named field changes; that field's error is reset to `""` if it was set, and the other errors are untouched |
| LoginPage.LoginPage.HandleSubmit | app/login/page.tsx:118-149 | with an invalid form `login` is not called and the user is unchanged. Otherwise loading ends and sign-in succeeds exactly on a success or a "Backend server" failure. The signed-in user is then the one the server returned, or the typed username when it returned none or was down. A rejection keeps the user and shows the response message or "Invalid credentials. Please try again." |
| RegisterPage.WithField | app/register/page.tsx:180 | only the named field changes |
| RegisterPage.UsernameError | app/register/page.tsx:116-122 | no error exactly when the trimmed username is non-empty and the untrimmed UTF-16 length is 3..50; "required" when blank; "at least 3 characters" when shorter; "less than 50 characters" when longer |
| RegisterPage.EmailShapeIsPattern | app/register/page.tsx:126 | the stated email shape is exactly `^[^\s@]+@[^\s@]+\.[^\s@]+$`: a non-empty local part, one `@`, no whitespace, a dot inside the domain |
| RegisterPage.ShapeGivesPattern | app/register/page.tsx:126 | every address of the stated shape matches the pattern |
| RegisterPage.PatternGivesShape | app/register/page.tsx:126 | every matching address has the stated shape |
| RegisterPage.EmailExampleAccepted | app/register/page.tsx:126 | `a@b.c` is accepted |
| RegisterPage.EmailExamplesRefused | app/register/page.tsx:126 | `a@b` and `@b.c` are refused |
| RegisterPage.EmailError | app/register/page.tsx:124-128 | no error exactly when the trimmed email is non-empty and has the email shape; "required" when blank; "Please enter a valid email address" otherwise |
| RegisterPage.PasswordError | app/register/page.tsx:130-134 | no error exactly when the UTF-16 length is at least 8; "required" when empty; "at least 8 characters" when present but shorter |
| RegisterPage.ConfirmError | app/register/page.tsx:136-140 | no error exactly when the confirmation is non-empty and equals the password; "please confirm" when empty; "Passwords do not match" when present and different |
| RegisterPage.Collect | app/register/page.tsx:113-143 | each field has an entry exactly when its rule gave a message, holding that message |
| RegisterPage.FormErrors | app/register/page.tsx:113-143 | one entry per failing field, with its message, and at most one message per field |
| RegisterPage.ValidIffAllRulesMet | app/register/page.tsx:142-143 | the form validates exactly when all four rules hold |
| RegisterPage.CheckUsername | app/register/page.tsx:116-122 | the if-chain adds exactly the username message, if any, to the errors so far |
| RegisterPage.CheckEmail | app/register/page.tsx:124-128 | the if-chain adds exactly the email message, if any |
| RegisterPage.CheckPassword | app/register/page.tsx:130-134 | the if-chain adds exactly the password message, if any |
| RegisterPage.CheckConfirm | app/register/page.tsx:136-140 | the if-chain adds exactly the confirmation message, if any |
| RegisterPage.Met | app/register/page.tsx:186-197 | the satisfied strength criteria: exactly those that hold, with no criterion twice, so at most 5 |
| RegisterPage.Labels | app/register/page.tsx:489-491 | exactly one label per strength: weak up to 2, good at 3, strong from 4 |
| RegisterPage.FullStrength | app/register/page.tsx:186-197 | a password meeting all five criteria has strength 5 and is labelled strong |
| RegisterPage.RegisterPage.constructor | app/register/page.tsx:18-27 | an empty form with no errors, not loading |
| RegisterPage.RegisterPage.ValidateForm | app/register/page.tsx:113-144 | the error map becomes `FormErrors` of the form, and the result is true exactly when it is empty |
| RegisterPage.RegisterPage.PasswordStrength | app/register/page.tsx:186-197 | the five independent checks add one point per criterion met, so the result is the number of distinct criteria the password meets, at most 5 |
| RegisterPage.RegisterPage.HandleInputChange | app/register/page.tsx:179-184 | only the named field changes; that field's error is reset to `""` if it was set |
| RegisterPage.RegisterPage.HandleSubmit | app/register/page.tsx:146-177 | `register` is not called on an invalid form. Otherwise sign-up succeeds exactly on a success or a "Backend server" failure. A rejection shows the response message or "Failed to create account. Please try again.", and loading ends |
| CreateTaskDialog.WithField | components/tasks/create-task-dialog.tsx:83 | only the named field changes |
| CreateTaskDialog.TextError | components/tasks/create-task-dialog.tsx:35-39 | no error exactly when the trimmed text is non-empty and the untrimmed length is at most 255; "required" when blank; "less than 255" when longer |
| CreateTaskDialog.FormErrors | components/tasks/create-task-dialog.tsx:31-43 | only the text field can have an error, exactly when `TextError` gives one |
| CreateTaskDialog.TextLengthBoundary | components/tasks/create-task-dialog.tsx:35-39 | length 255 is accepted and 256 refused |
| CreateTaskDialog.Payload | components/tasks/create-task-dialog.tsx:52-56 | the text is trimmed; an empty due date becomes null; an empty group becomes null and any other group is `parseInt` of it |
| CreateTaskDialog.ValidFormSendsCleanText | components/tasks/create-task-dialog.tsx:52-56 | a validated form sends text that is non-empty, trimmed and at most 255 long |
| CreateTaskDialog.GroupOptionSendsItsId | components/tasks/create-task-dialog.tsx:179-182 | choosing the option for group `n` sends group id `n` |
| CreateTaskDialog.CreateTaskDialog.constructor | components/tasks/create-task-dialog.tsx:21-27 | an empty form with no errors, not loading |
| CreateTaskDialog.CreateTaskDialog.ValidateForm | components/tasks/create-task-dialog.tsx:31-43 | the error map becomes `FormErrors` of the form, and the result is true exactly when it is empty |
| CreateTaskDialog.CreateTaskDialog.HandleInputChange | components/tasks/create-task-dialog.tsx:82-87 | only the named field changes; that field's error is reset to `""` if it was set |
| CreateTaskDialog.CreateTaskDialog.SelectGroup | components/tasks/create-task-dialog.tsx:176 | only the group field changes |
| CreateTaskDialog.CreateTaskDialog.HandleSubmit | components/tasks/create-task-dialog.tsx:45-80 | nothing is sent on an invalid form. Otherwise the payload is sent, and loading ends. Success resets the form, clears errors and closes the dialog. Failure keeps the form and the open state and shows the "Demo Mode" toast |
| CreateTaskDialog.EnabledSubmitPassesPresence | components/tasks/create-task-dialog.tsx:206 | with the submit button enabled, the only error validation can still give is "too long" |
| CreateTaskDialog.CreateTaskDialog.SubmitDisabled | components/tasks/create-task-dialog.tsx:206 | disabled exactly while loading or while the trimmed text is empty |
| CreateGroupDialog.WithField | components/groups/create-group-dialog.tsx:78 | only the named field changes |
| CreateGroupDialog.NameError | components/groups/create-group-dialog.tsx:32-38 | no error exactly when the trimmed name is non-empty and the untrimmed length is 3..100, with the required, too-short and too-long messages in that order |
| CreateGroupDialog.FormErrors | components/groups/create-group-dialog.tsx:29-42 | only the name can have an error, exactly when `NameError` gives one |
| CreateGroupDialog.UntrimmedLengthCounts | components/groups/create-group-dialog.tsx:32-38 | `"  a"` passes the length rule although it trims to one character |
| CreateGroupDialog.Payload | components/groups/create-group-dialog.tsx:51-54 | the name is trimmed; the description is trimmed, or absent when it trims to empty |
| CreateGroupDialog.ValidFormSendsCleanFields | components/groups/create-group-dialog.tsx:51-54 | a validated form sends a non-empty trimmed name, and, when a description is sent, it is non-empty and trimmed |
| CreateGroupDialog.CreateGroupDialog.constructor | components/groups/create-group-dialog.tsx:21-26 | an empty form with no errors, not loading |
| CreateGroupDialog.CreateGroupDialog.ValidateForm | components/groups/create-group-dialog.tsx:29-42 | the error map becomes `FormErrors` of the form, and the result is true exactly when it is empty |
| CreateGroupDialog.CreateGroupDialog.HandleInputChange | components/groups/create-group-dialog.tsx:77-82 | only the named field changes; that field's error is reset to `""` if it was set |
| CreateGroupDialog.CreateGroupDialog.SubmitDisabled | components/groups/create-group-dialog.tsx:176 | disabled exactly while loading or while the trimmed name is empty |
| CreateGroupDialog.CreateGroupDialog.HandleSubmit | components/groups/create-group-dialog.tsx:44-75 | nothing is sent on an invalid form. Every validated submit takes the success path, because the store never rethrows: the form is reset and the dialog closed either way. The store appends the group only on success, ends loading, and holds no error on success or the wrapper's message (else "Failed to create group") on failure |
| TrashPage.DeletedTasks | app/dashboard/trash/page.tsx:34 | exactly the deleted tasks |
| TrashPage.DeletedGroups | app/dashboard/trash/page.tsx:35 | exactly the deleted groups |
| TrashPage.DeletedListsKeepOrder | app/dashboard/trash/page.tsx:34-35 | both lists keep the original order |
| TrashPage.DaysUntilDeletion | app/dashboard/trash/page.tsx:38-44 | never negative, and 30 when there is no deletion time |
| TrashPage.DaysUntilDeletionBounds | app/dashboard/trash/page.tsx:38-44 | 30 with no deletion time; never negative; at most 30 when the deletion is in the past; 0 exactly when 30 whole days have passed |
| TrashPage.DaysUntilDeletionNonIncreasing | app/dashboard/trash/page.tsx:40-43 | a later `now` never shows more days |
| TrashPage.TasksByUrgency | app/dashboard/trash/page.tsx:47-54 | critical holds tasks with at most 7 days left, warning 8 to 14, safe more than 14 |
| TrashPage.UrgencyPartitions | app/dashboard/trash/page.tsx:47-54 | the three sections together are the deleted tasks, with multiplicities and sizes adding up, each in original order |
| TrashPage.ExactlyOneSection | app/dashboard/trash/page.tsx:47-54 | every deleted task is in exactly one section |
| TrashPage.RestoreAll | app/dashboard/trash/page.tsx:56-59 | no request, a refetch, and the toast with the count of deleted tasks |
| TrashPage.EmptyTrash | app/dashboard/trash/page.tsx:61-64 | no request, a refetch, and the "Trash emptied" toast |
| TrashPage.EmptyTrashIffNothingDeleted | app/dashboard/trash/page.tsx:120 | the empty state shows exactly when no task and no group is deleted |
| CompletedPage.CompletedTasks | app/dashboard/completed/page.tsx:30-32 | exactly the tasks that are completed and not deleted |
| CompletedPage.CompletedTasksKeepOrder | app/dashboard/completed/page.tsx:31 | the list keeps the original order |
| CompletedPage.TaskPeriods | app/dashboard/completed/page.tsx:35-47 | the four periods are the half-open intervals `[today, ∞)`, `[today-7d, today)`, `[today-30d, today-7d)` and `(-∞, today-30d)` |
| CompletedPage.PeriodsPartition | app/dashboard/completed/page.tsx:41-46 | together the periods hold exactly the completed tasks with a completion time, with multiplicities, and their sizes add up |
| CompletedPage.PeriodsDisjoint | app/dashboard/completed/page.tsx:42-45 | a task is in exactly one period when it has a completion time and in none otherwise |
| CompletedPage.UndatedInNoPeriod | app/dashboard/completed/page.tsx:42-45 | a task without a completion time appears in no period |
| CompletedPage.ThisWeekStatCountsSinceWeekStart | app/dashboard/completed/page.tsx:106 | the "This Week" stat counts every completed task finished since the week began |
| CompletedPage.Productivity | app/dashboard/completed/page.tsx:112 | ten per task capped at 100; exactly 100 from ten tasks |
| CompletedPage.Stars | app/dashboard/completed/page.tsx:171 | one star per two tasks, at most five |
| CompletedPage.PageStats | app/dashboard/completed/page.tsx:96-116 | the stats are in range, and "This Week" never exceeds the total |
| UpcomingPage.UpcomingTasks | app/dashboard/upcoming/page.tsx:37-39 | sorted by due time and a permutation of the open tasks due after `now` |
| UpcomingPage.UpcomingExactly | app/dashboard/upcoming/page.tsx:38 | a task is listed exactly when it is in the list, open and due after `now` |
| UpcomingPage.UpcomingKeepsOrderOfEqualDueTimes | app/dashboard/upcoming/page.tsx:37-39 | tasks due at the same moment keep the order the server sent them in |
| Seqs.SortByIsStable | app/dashboard/upcoming/page.tsx:39 | the sort is stable: for each key, the elements with that key appear in their input order |
| Seqs.InsertByKeepsEqualKeysInOrder | app/dashboard/upcoming/page.tsx:39 | an inserted element comes before every element that already has its key |
| UpcomingPage.EndOfThisWeek | app/dashboard/upcoming/page.tsx:30-32 | the last millisecond of a day 1 to 7 days after today, and that day is always a Sunday |
| UpcomingPage.EndOfNextWeek | app/dashboard/upcoming/page.tsx:34-35 | seven days after the end of this week |
| UpcomingPage.WeekEndExamples | app/dashboard/upcoming/page.tsx:31 | a Sunday's week ends seven days later and a Saturday's tomorrow night |
| UpcomingPage.Bucketed | app/dashboard/upcoming/page.tsx:41-45 | this week holds due times up to its end, next week those in between, later those after |
| UpcomingPage.BucketsPartition | app/dashboard/upcoming/page.tsx:41-45 | the buckets partition the upcoming tasks, with multiplicities, and each stays sorted |
| UpcomingPage.UpcomingNonEmptyIff | app/dashboard/upcoming/page.tsx:37-38 | the list is non-empty exactly when some task is open and due after `now` |
| UpcomingPage.PageStats | app/dashboard/upcoming/page.tsx:92-112 | the this-week and next-week cards count their buckets, and together never exceed the upcoming count |
| UpcomingPage.HasTasks | app/dashboard/upcoming/page.tsx:113 | the page has tasks exactly when the "Upcoming Tasks" card is non-zero |
| UpcomingPage.StatsCountUpcoming | app/dashboard/upcoming/page.tsx:92-113 | the "Upcoming Tasks" stat is the number of upcoming tasks; `hasTasks` holds exactly when some task is upcoming |
| DashboardPage.FetchedTasks | app/dashboard/page.tsx:36-40 | exactly the tasks due today that are open; tasks with no due time are dropped |
| DashboardPage.TodayTasks | app/dashboard/page.tsx:103-108 | exactly the open tasks created today or due today |
| DashboardPage.CompletedToday | app/dashboard/page.tsx:110-114 | exactly the tasks completed today that are completed and not deleted |
| DashboardPage.Progress | app/dashboard/page.tsx:147-150 | in 0..100; 0 with nothing done; 100 when all is done; otherwise the done share of all tasks as a percentage rounded half up |
| DashboardPage.FetchedAreTodayTasks | app/dashboard/page.tsx:103-108 | every fetched task is one of today's tasks |
| DashboardPage.NoProgressOnOpenTasks | app/dashboard/page.tsx:110-150 | with only uncompleted tasks held, completed-today is empty and Progress is 0 |
| DashboardPage.DashboardPage.constructor | app/dashboard/page.tsx:16-18 | no tasks, loading, no error |
| DashboardPage.DashboardPage.FetchTasks | app/dashboard/page.tsx:30-51 | on success the tasks are the filtered reply. On failure they are kept and the error is the thrown message or "Unknown error occurred". Loading ends, and the page only ever holds uncompleted tasks |
| GroupsPage.FilteredGroups | app/dashboard/groups/page.tsx:17-19 | exactly the groups that are not deleted |
| GroupsPage.FilteredGroupsKeepOrder | app/dashboard/groups/page.tsx:18 | a subsequence of the store's groups; filtering again changes nothing |
| GroupsPage.PageView | app/dashboard/groups/page.tsx:101-109 | the spinner exactly while loading; cards only for a non-empty list of the live groups |
| GroupsPage.EmptyStateIffNoLiveGroup | app/dashboard/groups/page.tsx:101-109 | once loading is over, the empty state shows exactly when every group is deleted; otherwise the cards show the filtered groups |
| GroupsPage.HandleRetry | app/dashboard/groups/page.tsx:30-32 | retry has exactly the effect of `fetch_groups`: the server list on success; on failure the list is kept and the error is the thrown message or "Failed to fetch groups"; loading ends |
| ProviderGroupCard.ActiveTasks | components/groups/GroupCard.tsx:51 | exactly the tasks neither completed nor deleted; an absent list gives `[]` |
| ProviderGroupCard.CompletedTasks | components/groups/GroupCard.tsx:52 | exactly the completed tasks that are not deleted |
| ProviderGroupCard.ListsPartitionKeptTasks | components/groups/GroupCard.tsx:51-53 | the lists are disjoint, both are empty with no task list, and their sizes add up to the number of non-deleted tasks |
| ProviderGroupCard.GroupCard.constructor | components/groups/GroupCard.tsx:15-16 | not deleting |
| ProviderGroupCard.GroupCard.HandleDelete | components/groups/GroupCard.tsx:32-49 | the card hides itself for good. The store is called exactly when the id is truthy. It then removes the group on success only, ends loading, and holds no error on success or the wrapper's message (else "Failed to delete group") on failure |
| ApiGroupCard.TaskCount | components/groups/group-card.tsx:43 | the number of tasks, 0 with no list |
| ApiGroupCard.CompletedCount | components/groups/group-card.tsx:44 | the completed tasks, deleted ones included, at most the task count |
| ApiGroupCard.ShownProgress | components/groups/group-card.tsx:45 | in 0..100; 0 with nothing completed; 100 when all tasks are completed; otherwise the completed share as a percentage rounded half up |
| ApiGroupCard.DeletedCompletedTaskCounts | components/groups/group-card.tsx:44 | a group whose one task is completed and deleted still shows 100% |
| ApiGroupCard.GroupCard.constructor | components/groups/group-card.tsx:19 | not deleting, no update scheduled |
| ApiGroupCard.GroupCard.HandleDelete | components/groups/group-card.tsx:23-41 | `DELETE /api/group/{id}` is sent. The card stays hidden exactly on success, and the parent is refreshed only after a success |
| TaskCard.ToggleEndpoint | components/tasks/task-card.tsx:74 | the uncomplete endpoint for a completed task, the complete endpoint otherwise |
| TaskCard.ToggleEndpointNamesTask | components/tasks/task-card.tsx:74 | the endpoint's prefix tells which way the toggle goes, and the id reads back from it |
| TaskCard.GetGroupName | components/tasks/task-card.tsx:120-127 | null for an absent or 0 id; "Work Projects" for 1, "Personal Goals" for 2, "Learning" for 3; undefined for any other id |
| TaskCard.KnownGroupsHaveDistinctNames | components/tasks/task-card.tsx:121-125 | the three known ids get three different names |
| TaskCard.TaskCard.constructor | components/tasks/task-card.tsx:14-24 | keeps the task, the demo flag and whether the page passed `onUpdate`; not loading, not deleting |
| TaskCard.TaskCard.HandleToggleComplete | components/tasks/task-card.tsx:56-90 | the outcome is `ToggleOutcome`: in demo mode nothing is sent; otherwise the toggle endpoint is patched, and the parent is updated and success reported only when the request succeeded and an `onUpdate` was passed. Loading is false afterwards whatever the outcome |
| TaskCard.ToggleOutcome | components/tasks/task-card.tsx:73-86 | nothing is sent in demo mode; otherwise the toggle endpoint with the wrapper's notice, reported as a success exactly when the request succeeded and `onUpdate` exists |
| TaskCard.AcceptedToggleReportedAsFailure | components/tasks/task-card.tsx:75-76 | a toggle the server accepted, on a card without `onUpdate`, is reported as a failure |
| TaskCard.CorrectedToggleOutcome | components/tasks/task-card.tsx:73-86 | with `onUpdate` optional, a toggle is reported as a success exactly when the request succeeded |
| TaskCard.CorrectedToggleAgreesWithOnUpdate | components/tasks/task-card.tsx:73-86 | where the page passes `onUpdate`, the code as written and the corrected toggle give the same outcome |
| TaskCard.TaskCard.HandleDelete | components/tasks/task-card.tsx:92-118 | in demo mode nothing is sent. Otherwise `DELETE /api/task/{id}` goes out and the card stays hidden exactly on success. The parent update is scheduled on success, and only when an `onUpdate` was passed |

## Left out

- **Transport.** The axios transport and the client's HTTP helpers (`lib/api-client.ts:180-203`)
  are library wrappers, so every server reply is a parameter. `lib/api-base.ts` is not part of
  this model.
- **Timing and navigation.**
  - Promise scheduling, the 15-second timeout, the base URL and `withCredentials` are left out.
  - So are the `window.location` redirect to `/login` after a failed refresh and every
    `router.push`/`router.replace`, including the register page's.
  - The async interceptor is split into explicit events: a failed response, and the refresh
    settling.
  - Interleavings are modelled only as sequences of those events.
- The resolve/reject pairs of `failedQueue` are named by the request they belong to. Their
  promises are not modelled.
- **Clock and locale.** `new Date()`, `toDateString`, `setDate`/`setHours` and
  `toLocaleDateString` are not modelled. The current time, local midnight, the weekday and a
  timestamp's calendar day are parameters, so daylight-saving shifts are not captured.
  Unparseable date strings, which give NaN dates, are not modelled. An absent or empty date
  is `None`.
- **Regex engine.** The email pattern and the password-strength tests are stated as
  predicates on the characters, not run through a regex engine.
- **Floating point.** Progress percentages are computed exactly and rounded half up with
  integers, as `Math.round` rounds a true half. The source divides and multiplies in IEEE
  doubles, so a quotient whose exact percentage ends in .5 can land just below it. Worked
  out in double arithmetic, `23/40*100` is 57.49999999999999, shown as 57 where the model
  gives 58; 29/200 (14 against 15) and 57/200 (28 against 29) behave the same way.
- ApiGroupCard.ShownProgress: exact rounding, so the inputs above differ from the source by one point.
- DashboardPage.Progress: exact rounding, so the inputs above differ from the source by one point.
- **Toasts and console.** Toasts become returned notices or outcome values. `console` output
  is dropped.
- **Animation and markup.** GSAP, refs, JSX, Tailwind classes, the sidebar, the header and
  the dashboard layout are left out.
- **Task provider.** `components/providers/task-provider.tsx` is an incomplete stub, so the
  task lists the trash, completed and upcoming pages read are parameters. Their retry buttons
  call that stub, so they are not modelled.
- **Dialog `open` flag.** It belongs to the parent through `onOpenChange`. The dialog classes
  hold it as a field that submit closes.
- **Auth provider.** It calls the API client directly, not the wrappers. Its outcomes are
  parameters, so the model does not tie the "Backend server" test to what the client
  actually throws.
- **Other files.** The settings and forgot-password pages, `group-delete-card.tsx` (its
  calls are commented out), `next.config.js` and the type declarations are not part of this
  model.
- **Failed-refresh queue.** On a failed refresh the parked requests are neither rejected nor
  replayed: the `catch` at lib/api-client.ts:79-84 rejects only the request that started the
  refresh, so parked requests wait for the next successful refresh.
- ApiClient.Characters: a character above U+FFFF is two UTF-16 code units, which
  `Object.values` splits into two lone surrogates joined by ", "; a Dafny `char` cannot hold a
  lone surrogate, so here such a character is kept whole as one code point.
- AuthProvider.AuthProvider.Logout: the logout reply is a parameter that the contract
  deliberately ignores, because the provider swallows it.
- GroupProvider.GroupProvider.GetGroupById: its contract says a group with the id is returned.
  "First" is stated on `GroupProvider.FindById`, which defines it.

## Findings

The refresh coordinator (`ApiClient.OnError`, `ApiClient.RefreshOutcome` and the `APIClient`
methods) models the client as written, so it sends `RefreshRequest` and can stall. The
corrected refresh call, `ApiClient.CorrectedRefreshRequest`, is defined beside it. The
corrected members state their properties about that call. `TaskCard.TaskCard` likewise models
the card as written, with a flag for whether the page passed `onUpdate`; the corrected toggle,
`TaskCard.CorrectedToggleOutcome`, is defined beside it.

| source | as written | input that shows it | evidently intended | confidence | as-written member | corrected member |
|---|---|---|---|---|---|---|
| lib/api-client.ts:132-135 | `refreshToken` passes `X-CSRF-TOKEN: csrf_refresh_token` as a per-call header. That call goes through the same request interceptor (lines 36-42), which overwrites the header with `csrf_access_token` whenever that cookie is non-empty. | the cookie `csrf_access_token=A; csrf_refresh_token=R`: the refresh call sends `A` | the refresh call carries the refresh token `R` | not executed | ApiClient.RefreshCallCounterexample | ApiClient.RefreshCallHeaders |
| app/login/page.tsx:193 | the page shows its spinner while loading or while no user is signed in, and the effect at lines 29-33 redirects any signed-in user. The register page has the same gate at app/register/page.tsx:303. | the mount check ends with no user (`isLoading` false, `user` null): the spinner stays for good and the form never appears | the spinner only while loading or while a signed-in user is redirected | not executed | LoginPage.FormNeverUsable | LoginPage.FormShownToSignedOutVisitor |
| components/tasks/task-card.tsx:76 | `handleToggleComplete` calls `onUpdate()` inside the `try`, after the `PATCH`. Only the dashboard (app/dashboard/page.tsx:240) passes `onUpdate`. The completed, upcoming and trash pages and the group card (app/dashboard/completed/page.tsx:261, app/dashboard/upcoming/page.tsx:208, app/dashboard/trash/page.tsx:155, components/groups/GroupCard.tsx:124) render the card without it, which the build allows (next.config.js:7). | completing a task on the completed page: the `PATCH` succeeds, `onUpdate()` throws a TypeError, and the card shows "Failed to update task" and nothing is refetched | the success toast whenever the request succeeded, with `onUpdate` optional | not executed | TaskCard.AcceptedToggleReportedAsFailure | TaskCard.CorrectedToggleOutcome |
| lib/api-client.ts:132 | `refreshToken` sends its call through `this.client`, the instance whose response interceptor (lines 51-92) parks any unmarked 401 while `isRefreshing` is set. The refresh call carries no `_retry`, so its own 401 is parked behind itself: `refreshToken` never settles, the `finally` at lines 85-87 never runs, and every later 401 waits for good. | a 401 reply to `POST /auth/refresh`, for example with an expired refresh cookie | a failed refresh call rejects the attempt, clears `isRefreshing` and leads to the login redirect | not executed | ApiClient.RefreshCall401Stalls | ApiClient.CorrectedRefreshCallSettles |
