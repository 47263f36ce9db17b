# Job board: moderation, posting, applying and the client-side handlers

This project models the core of a job-board web application in Dafny. It has two parts.

**Backend routes over an in-memory database.** `Store.Database` is a class that holds the Users, Jobs and Applications tables as maps from primary key to row. It also holds the next autoIncrement value of each key. Its invariant `Valid()` says three things:

- every key is below its table's next value;
- emails are unique (the unique index on `Users.email`);
- a candidate holds at most one application per job.

Each Express route is a method in the module named after its route file (`AdminRoutes`, `JobRoutes`, `UserRoutes`, `AuthRoutes`). A route method takes the database and the caller principal `{id, role}`, which is the payload of the caller's token. It returns the status code and JSON body the route sends, and writes the tables as the route does. Every route method keeps `Valid()`. Its `ensures` gives the whole new state for each branch, in terms of a pure function on the tables (`ApproveJobIn`, `BanUserIn`, `UnbanUserIn`, `MergeProfile`). Lemmas about those functions give the properties that relate several calls: approve is idempotent, unban undoes ban, a merge is idempotent. Three parts are read-only and are written as functions:

- the job listing, `JobRoutes.ListJobs`;
- the login decision chain, `AuthRoutes.Login`;
- the profile read, `UserRoutes.GetMe`.

Password hashing is symbolic. A `StoredPassword` is either a bcrypt digest, which records the salt and the secret, or an empty password the hook left unhashed. `ComparePassword` accepts exactly the password a digest was made from and never accepts an unhashed value (an idealised bcryptjs). A token is its `{id, role}` payload. The salt, the clock reading stored in `appliedAt`, and the caller are all parameters.

**Client components.** Each React component whose handlers update state step by step is a class. Its fields are the component's `useState` variables:

- the two application forms, `ApplyForm` and `JobApplication`;
- the notification bell, `NotificationPanel.Notifications`;
- the message thread, `MessageThread.Messages`;
- the candidate's application list, `MyApplicationsPage.MyApplications`;
- the admin dashboard, `AdminDashboardPage.AdminDashboard`.

Each network call becomes a `Reply<T>` parameter: either the response data, or a failure that may carry the server's `message` field. Each timer callback is a method of its own, and `Math.random()`'s verdict is a boolean parameter. The list updates (`filter` by id, `map` replacing by id, mark-read maps, the unread count) and the submit-time validator are pure functions in `ListOps`, `NotificationPanel` and `FormValidation`. Lemmas about them are proved by induction.

The conditions under which a button or panel is rendered are predicates: `ShowsMarkAsRead`, `ShowsMarkAll`, `OffersWithdraw`, `ShowsMessages`, `Renders` for the application modal, and for the dashboard `ShowsTables` together with the row conditions `OffersApprove` and `OffersBan`. `IsSentByUser` decides which side a message is drawn on.

Facts about the code that the model keeps:

- GET `/api/jobs` adds no `isApproved` condition, so unapproved jobs are listed (`JobRoutes.UnapprovedJobsAreListed`).
- A second application to the same job is refused with 400.
- POST `/apply` reads only `jobId`, does not look at the job's approval and creates an application with no status.
- Register answers 200.
- Login with an unknown email answers 500, not the 400 of its `if (!user)` branch: a debug log of the row's prototype throws first (see "## Findings").
- The Applications table has no status column, so the server has no pending/accepted/rejected states. Given the server's rows, the client's withdraw button never appears (`MyApplicationsPage.NoStatusNoWithdraw`).
- The beforeCreate hook hashes the password only when it is truthy. Registering with an empty password stores it unhashed, and that account can never log in (`AuthRoutes.Register`, `AuthRoutes.UnhashedPasswordNeverLogsIn`).

Some behaviours of the code that the proofs make visible:

- Admin GET `/users` returns full user rows, password column included (`AdminRoutes.ListAllUsers`).
- The bell's counter drops by one on every successful mark-as-read, even if the entry was already read. It stays equal to the number of unread entries only when the marked entry was unread (`NotificationPanel.MarkReadCount`, `NotificationPanel.Notifications.MarkAsRead`, `NotificationPanel.DoubleMarkDrifts`).
- The dashboard's tables, and so every Approve and Ban button, render only while `!loading && error == ""`. No handler clears `error`, so after one failed request no table shows again until the page reloads (`AdminDashboardPage.AdminDashboard.ShowsTables` and the handlers' contracts).
- Toggling the same application twice restores the selection only when nothing was selected or that application was already selected (`MyApplicationsPage.ToggleTwice`).

## Model

| member | source | states |
|---|---|---|
| `Wrappers.ErrorText` | client/src/components/notification.jsx:30 | the error shown is the server's message when present and non-empty, the component's fallback text otherwise |
| `Text.TrimEmptyIffBlank` | client/src/components/ApplyForm.jsx:53 | `s.trim()` is empty exactly when every character of `s` is ECMAScript white space or a line terminator |
| `Text.TrimStart` | client/src/components/ApplyForm.jsx:53 | the result is a suffix of the input that does not start with white space, and everything dropped is white space |
| `Text.TrimEnd` | client/src/components/ApplyForm.jsx:53 | the result is a prefix of the input that does not end with white space, and everything dropped is white space |
| `Text.Trim` | client/src/components/ApplyForm.jsx:53 | `String.prototype.trim`: both ends stripped of white space and line terminators |
| `Text.Contains` | server/routes/jobs.js:10-11 | `includes` / `LIKE '%v%'` as a substring test: the needle is a prefix of some suffix of the string |
| `Text.ContainsIffOccurs` | server/routes/jobs.js:10-11 | the substring test used for `LIKE '%v%'` agrees with "occurs at some index" |
| `Text.ContainsCharIffIn` | client/src/components/ApplyForm.jsx:59 | `contact.includes('@')` holds exactly when '@' is one of the characters |
| `Models.ParseContract` | server/routes/jobs.js:13-14 | a contract spelling is accepted exactly when it is one of full-time, part-time, contract, and reads back to that spelling |
| `Models.ParseContractName` | server/models/Job.js:26-29 | every contract value of the column reads back from its spelling |
| `Models.HashPassword` | server/models/User.js:95-100 | a truthy password is stored as a digest with the drawn salt; an empty one is stored as given |
| `Models.ComparePassword` | server/models/User.js:110-112 | a digest accepts exactly its own secret; an unhashed stored value accepts nothing |
| `Models.ComparePasswordOfHash` | server/models/User.js:96-112 | the stored value accepts exactly the registered password when it was non-empty, whatever the salt, and accepts nothing when it was empty |
| `Models.NewUser` | server/models/User.js:27-34 | a created user has the given name, email, password and role, is not banned and has null profile columns |
| `Models.ProfileLosesOnlyPassword` | server/routes/users.js:9-11 | the profile sent back loses the password and nothing else |
| `Store.Database.Valid` | server/models/User.js:91-93 | keys lie below the next autoIncrement value, emails are unique, and each candidate has at most one application per job |
| `Store.AtMostOneApplication` | server/routes/jobs.js:64-75 | under the one-per-pair invariant a candidate has at most one application to a job, exactly one when the lookup finds it |
| `AdminRoutes.IsAdmin` | server/routes/admin.js:7-12 | the admin guard lets through exactly callers whose token role is admin |
| `AdminRoutes.ApproveJobIn` | server/routes/admin.js:34-35 | approving sets isApproved on that job only, keeps its other columns and the table's keys |
| `AdminRoutes.ApproveIdempotent` | server/routes/admin.js:34-35 | approving twice gives the same table as approving once |
| `AdminRoutes.BanUserIn` | server/routes/admin.js:79-83 | banning sets isBanned on that non-admin user only and never changes an admin row |
| `AdminRoutes.UnbanUserIn` | server/routes/admin.js:97 | unbanning clears isBanned on that user only, for any role |
| `AdminRoutes.BanThenUnban` | server/routes/admin.js:82-97 | ban followed by unban leaves the user not banned with every other column as before |
| `AdminRoutes.ListAllJobs` | server/routes/admin.js:15-20 | a non-admin gets 403; an admin gets every job |
| `AdminRoutes.ListAllUsers` | server/routes/admin.js:62-65 | a non-admin gets 403; an admin gets every user row, password column included |
| `AdminRoutes.ApproveJob` | server/routes/admin.js:7-39 | non-admin 403 and unknown id 404 leave the database unchanged; otherwise only that job becomes approved and is returned |
| `AdminRoutes.DeleteJob` | server/routes/admin.js:47-54 | non-admin 403 and unknown id 404 change nothing; otherwise exactly that job is removed and every other table is kept |
| `AdminRoutes.BanUser` | server/routes/admin.js:73-84 | 403 for a non-admin caller or an admin target, 404 for an unknown id, all without change; otherwise only that user becomes banned; no admin row ever changes |
| `AdminRoutes.UnbanUser` | server/routes/admin.js:91-99 | non-admin 403 and unknown id 404 change nothing; otherwise only that user's isBanned becomes false, whatever its role |
| `JobRoutes.BuildWhere` | server/routes/jobs.js:8-18 | the where object is refused exactly for a truthy contract outside the three spellings; each truthy filter adds its condition carrying the filter's own value (the parsed contract for the contract), and a falsy one adds none |
| `JobRoutes.ListJobs` | server/routes/jobs.js:7-25 | 400 exactly for an invalid contract filter; otherwise exactly the jobs meeting every truthy filter (title and location substrings, exact contract), rows unchanged, approval ignored |
| `JobRoutes.UnapprovedJobsAreListed` | server/routes/jobs.js:9-24 | with no filters an unapproved job is listed |
| `JobRoutes.JobMatchesOwnFields` | server/routes/jobs.js:10-17 | a job is found by filters copied from its own title, location and contract |
| `JobRoutes.PostJob` | server/routes/jobs.js:32-47 | a non-recruiter gets 403 and no job is created; otherwise one new job under a fresh key, owned by the caller and unapproved, returned with 201 |
| `JobRoutes.Apply` | server/routes/jobs.js:54-75 | 403 for a non-candidate, 404 for an unknown job, 400 for an existing pair, each without change; otherwise exactly one new application; the one-per-pair invariant is kept |
| `UserRoutes.OrKeep` | server/routes/users.js:33 | `v \|\| current`: a truthy new value wins, otherwise the current one stays |
| `UserRoutes.OrKeepNullable` | server/routes/users.js:36-39 | the same rule for a nullable column |
| `UserRoutes.MergeProfile` | server/routes/users.js:33-47 | name, phone, location, about, website take truthy new values; position changes only for candidates, company only for recruiters; email, role, password and isBanned never change |
| `UserRoutes.MergeIdempotent` | server/routes/users.js:33-47 | applying the same update twice gives the record one update gives |
| `UserRoutes.MergeOfFalsyUpdate` | server/routes/users.js:33-47 | an update with only absent or empty fields changes nothing |
| `UserRoutes.GetMe` | server/routes/users.js:7-17 | 404 for a missing caller; otherwise the caller's row without its password |
| `UserRoutes.UpdateMe` | server/routes/users.js:25-55 | 404 without change for a missing caller; otherwise only the caller's row becomes its merge, and the answer is that row without the password |
| `AuthRoutes.FindByEmail` | server/routes/auth.js:25 | the lookup finds a row exactly when some user has the email, and the row found has it |
| `AuthRoutes.FindByEmailUnique` | server/models/User.js:91-93 | with the unique index the lookup finds the one user with that email |
| `AuthRoutes.Login` | server/routes/auth.js:22-45 | as written: an unknown email makes `Object.getPrototypeOf(null)` throw, so the catch answers 500 with the TypeError text; a known email then gets banned 403, wrong password 400, else 200 with a token carrying the user's id and role; the table is only read |
| `AuthRoutes.LoginRevealsRegisteredEmail` | server/routes/auth.js:25-38 | as written, a wrong password (400) and an unknown email (500) get different answers, so the status tells whether an email is registered |
| `AuthRoutes.LoginIntended` | server/routes/auth.js:28 | the intended route: an unknown email gets 400 "Invalid credentials"; a registered email gets exactly the as-written answer |
| `AuthRoutes.BannedLoginIgnoresPassword` | server/routes/auth.js:30-38 | a banned user gets 403 whatever the password, since that check comes first |
| `AuthRoutes.WrongPasswordLooksLikeUnknownEmail` | server/routes/auth.js:28-38 | under the intended route a wrong password gets the same 400 answer as an unknown email |
| `AuthRoutes.UnhashedPasswordNeverLogsIn` | server/models/User.js:96-99 | a row whose password was stored unhashed is refused at login whatever password is sent |
| `AuthRoutes.Register` | server/routes/auth.js:8-15 | a taken email gets 400 without change; otherwise exactly one user with the given name, email, stored password and role, and a token with its id and role; logging in with that email and password then succeeds for a non-empty password and gets 400 for an empty one |
| `ListOps.CountId` | client/src/pages/MyApplications.jsx:32 | the number of rows with the id is at most the length, and zero exactly when no row carries it |
| `ListOps.CountIdAppend` | client/src/pages/MyApplications.jsx:32 | the count works piecewise over concatenation |
| `ListOps.RemoveById` | client/src/pages/MyApplications.jsx:32 | the filter keeps exactly the rows whose id differs, losing one row per occurrence of the id |
| `ListOps.RemoveByIdAppend` | client/src/pages/MyApplications.jsx:32 | filtering works piecewise over concatenation, so the kept rows keep their order |
| `ListOps.RemoveAbsentId` | client/src/pages/AdminDashboard.jsx:51 | with no row carrying the id the list is unchanged |
| `ListOps.RemoveByIdIdempotent` | client/src/pages/AdminDashboard.jsx:51 | removing the same id twice removes nothing more |
| `ListOps.ReplaceById` | client/src/pages/AdminDashboard.jsx:40 | the map keeps the length and replaces exactly the rows with that id |
| `ListOps.ReplaceByIdKeepsIds` | client/src/pages/AdminDashboard.jsx:64 | a replacement carrying the same id keeps every row's id, and repeating it changes nothing |
| `FormValidation.SetField` | client/src/components/ApplyForm.jsx:35-40 | only the named field takes the new value; the other fields and the files are kept |
| `FormValidation.MatchesPhonePattern` | client/src/components/ApplyForm.jsx:60 | `/^[0-9+\- ]+$/` holds exactly for a non-empty string of digits, '+', '-' and spaces |
| `FormValidation.RequiredFilled` | client/src/components/ApplyForm.jsx:53 | the first check passes exactly when cv, motivation letter and contact are all non-blank |
| `FormValidation.ContactShaped` | client/src/components/ApplyForm.jsx:59-61 | the contact passes exactly when it contains '@' or is phone-shaped |
| `FormValidation.Validate` | client/src/components/ApplyForm.jsx:52-64 | accepted exactly when the three required fields are non-blank and the contact is email- or phone-shaped; a blank required field gives the required-fields message, and a filled form that is rejected gets the contact message |
| `FormValidation.ValidateIgnoresNoteAndFiles` | client/src/components/JobApplication.jsx:45-53 | the note and the files play no part in validation |
| `FormValidation.PhoneContactAccepted` | client/src/components/JobApplication.jsx:49-53 | a form with contact "+1 555-0100" is accepted |
| `FormValidation.WordContactRejected` | client/src/components/JobApplication.jsx:49-53 | a form with contact "abc" is rejected with the contact message |
| `ApplyForm.JobApplicationForm.HandleChange` | client/src/components/ApplyForm.jsx:35-40 | only the named field of formData changes |
| `ApplyForm.JobApplicationForm.HandleFileChange` | client/src/components/ApplyForm.jsx:42-47 | only files changes |
| `ApplyForm.JobApplicationForm.HandleSubmit` | client/src/components/ApplyForm.jsx:49-68 | a rejected form sets only error (to the failing check's message); an accepted one sets isSubmitting, clears error and arms the timer |
| `ApplyForm.JobApplicationForm.CompleteSubmission` | client/src/components/ApplyForm.jsx:70-90 | success shows the banner and arms the reset, failure sets the failure text; submitting ends either way |
| `ApplyForm.JobApplicationForm.ResetAfterSuccess` | client/src/components/ApplyForm.jsx:75-85 | every text field becomes empty and files null; the banner goes |
| `JobApplication.JobApplicationForm.HandleChange` | client/src/components/JobApplication.jsx:35-37 | only the named field changes |
| `JobApplication.JobApplicationForm.HandleFileChange` | client/src/components/JobApplication.jsx:39-41 | only files changes |
| `JobApplication.JobApplicationForm.HandleSubmit` | client/src/components/JobApplication.jsx:43-56 | a rejected form sets only error (to the failing check's message); an accepted one sets isSubmitting, clears error and arms the timer; onClose is not called |
| `JobApplication.JobApplicationForm.CompleteSubmission` | client/src/components/JobApplication.jsx:57-70 | success shows the banner, failure sets the failure text; submitting ends; onClose is not called |
| `JobApplication.JobApplicationForm.Renders` | client/src/components/JobApplication.jsx:73 | the modal renders exactly when its `isOpen` prop is set |
| `JobApplication.JobApplicationForm.ResetAndClose` | client/src/components/JobApplication.jsx:61-65 | the form is reset to empty and onClose is called exactly once |
| `NotificationPanel.CountUnread` | client/src/components/notification.jsx:26 | the unread count is zero exactly when every entry is read, and never exceeds the length |
| `NotificationPanel.MarkRead` | client/src/components/notification.jsx:49-53 | length and order kept; only entries with that id become read |
| `NotificationPanel.MarkAllRead` | client/src/components/notification.jsx:69 | length kept; every entry becomes read, nothing else changes |
| `NotificationPanel.MarkReadCount` | client/src/components/notification.jsx:49-54 | with unique ids, marking an id lowers the unread count by one exactly when that id was unread |
| `NotificationPanel.MarkAllReadClears` | client/src/components/notification.jsx:69-70 | after mark-all nothing is unread, and mark-all is idempotent |
| `NotificationPanel.DoubleMarkDrifts` | client/src/components/notification.jsx:54 | two successful marks of one unread entry lower the real count by one only |
| `NotificationPanel.Notifications.ShowsMarkAll` | client/src/components/notification.jsx:105 | the mark-all button is shown exactly when the list is not empty |
| `NotificationPanel.Notifications.ShowsMarkAsRead` | client/src/components/notification.jsx:141 | the per-entry button is shown exactly for an unread entry |
| `NotificationPanel.Notifications.FetchNotifications` | client/src/components/notification.jsx:14-31 | no token: error set, nothing requested, list and count kept; success: list replaced and count equal to its unread entries; failure: error set, list and count kept |
| `NotificationPanel.Notifications.MarkAsRead` | client/src/components/notification.jsx:41-58 | success marks that id and lowers the counter by exactly 1, so the count stays right exactly when the target was unread; failure sets error only |
| `NotificationPanel.Notifications.MarkAllAsRead` | client/src/components/notification.jsx:61-74 | success makes every entry read and the counter 0; failure sets error only |
| `MessageThread.IsSentByUser` | client/src/components/messages.jsx:81-83 | a message is drawn on the viewer's own side exactly when a candidate views a message from the candidate, or a recruiter one from the recruiter |
| `MessageThread.OwnSideExactlyOnce` | client/src/components/messages.jsx:81-83 | between two distinct parties each message is drawn as own by exactly one of candidate and recruiter, and never by an admin |
| `MessageThread.Messages.FetchMessages` | client/src/components/messages.jsx:11-30 | no token: error set and nothing requested; success replaces the thread; failure sets error and keeps it |
| `MessageThread.Messages.SetNewMessage` | client/src/components/messages.jsx:115 | only the input changes |
| `MessageThread.Messages.HandleSendMessage` | client/src/components/messages.jsx:44-64 | a blank input sets error and sends nothing; success appends exactly the sent message after the earlier ones and clears input and error; failure sets error and keeps thread and input |
| `MyApplicationsPage.Toggle` | client/src/pages/MyApplications.jsx:39-43 | the selected id is cleared, any other id becomes selected |
| `MyApplicationsPage.ToggleTwice` | client/src/pages/MyApplications.jsx:39-43 | toggling an id twice restores the selection exactly when it was empty or that id |
| `MyApplicationsPage.OffersWithdraw` | client/src/pages/MyApplications.jsx:77 | withdraw is offered exactly for an entry whose status is `'pending'` |
| `MyApplicationsPage.NoStatusNoWithdraw` | client/src/pages/MyApplications.jsx:77-84 | an entry without a status is never offered withdraw |
| `MyApplicationsPage.MyApplications.FetchApplications` | client/src/pages/MyApplications.jsx:11-22 | success replaces the list, failure sets error and keeps it |
| `MyApplicationsPage.MyApplications.HandleWithdraw` | client/src/pages/MyApplications.jsx:26-37 | success removes exactly the entries with that id; failure sets error and keeps the list |
| `MyApplicationsPage.MyApplications.ShowsMessages` | client/src/pages/MyApplications.jsx:86 | the message panel is shown exactly under the selected entry |
| `MyApplicationsPage.MyApplications.ToggleMessages` | client/src/pages/MyApplications.jsx:39-43 | only the selection changes, by the toggle rule |
| `AdminDashboardPage.OffersApprove` | client/src/pages/AdminDashboard.jsx:125 | the row condition for approve: the job is not approved; the button appears only when the tables show as well (`ShowsTables`) |
| `AdminDashboardPage.OffersBan` | client/src/pages/AdminDashboard.jsx:180 | the row condition for ban: the user is neither banned nor an admin; the button appears only when the tables show as well (`ShowsTables`) |
| `AdminDashboardPage.ApprovedRowOffersNoApprove` | client/src/pages/AdminDashboard.jsx:125 | after the approved job replaces its row that row no longer offers approve; other rows keep their button |
| `AdminDashboardPage.AdminDashboard.ShowsTables` | client/src/pages/AdminDashboard.jsx:78-95 | the tables render exactly when loading is over and no error is recorded |
| `AdminDashboardPage.AdminDashboard.FetchData` | client/src/pages/AdminDashboard.jsx:12-28 | both lists are set only when both requests succeed; otherwise error takes a failed request's text and both lists are kept; loading ends; afterwards the tables show exactly when both succeeded and no error was recorded before |
| `AdminDashboardPage.AdminDashboard.HandleApproveJob` | client/src/pages/AdminDashboard.jsx:33-44 | success replaces only the job with that id, keeping length and users; failure sets error and keeps both lists; the tables show afterwards exactly when they showed before and the request succeeded |
| `AdminDashboardPage.AdminDashboard.HandleDeleteJob` | client/src/pages/AdminDashboard.jsx:46-55 | success removes only the jobs with that id; failure sets error and keeps both lists; the tables show afterwards exactly when they showed before and the request succeeded |
| `AdminDashboardPage.AdminDashboard.HandleBanUser` | client/src/pages/AdminDashboard.jsx:57-68 | success replaces only the user with that id; failure sets error and keeps both lists; the tables show afterwards exactly when they showed before and the request succeeded |

## Findings

| source | as written | input that shows it | evidently intended | confidence | as-written member | corrected member |
|---|---|---|---|---|---|---|
| server/routes/auth.js:25-28 | the debug `Object.getPrototypeOf(user)` runs before `if (!user)`; for a null row it throws, and the catch answers 500 `{ message: 'Server error', error: 'Cannot convert undefined or null to object' }` | POST /api/auth/login with an email no user has | 400 "Invalid credentials", the same answer as a wrong password | not executed | `AuthRoutes.Login`, with `AuthRoutes.LoginRevealsRegisteredEmail` | `AuthRoutes.LoginIntended`, with `AuthRoutes.WrongPasswordLooksLikeUnknownEmail` |

On a registered email the two agree (`AuthRoutes.LoginIntended`'s contract), so `AuthRoutes.Register`'s login round trip holds for both.

## Left out

- Database access is not modelled. That covers the MySQL connection, `sequelize.sync`, the associations and the Express/CORS setup (server/models/index.js, server/server.js). The `catch` blocks that answer 500 on a database failure are left out with it. The one 500 an ordinary input reaches, the login crash on an unknown email, is modelled.
- Schema validation by the ORM is not modelled: NOT NULL, values outside an ENUM, the `isEmail` check. Inputs are typed (`Role`, `Contract`), so the first two cannot arise. But an email such as "abc" fails `isEmail` in the source, which answers 500 and creates no row, while `AuthRoutes.Register` creates the user.
- The auth middleware is not part of this model. Its 401 and token verification are left out, and the caller principal is a parameter. Token signing is symbolic, with no secret and no one-hour expiry.
- Models.ComparePasswordOfHash: bcrypt is symbolic. `ComparePassword` is exact equality with the hashed secret, so collisions are ignored, and so is bcrypt's truncation of passwords to 72 bytes: two passwords that agree on their first 72 bytes match in the source but not in the model. The salt is a parameter. Login's missing-`comparePassword` branch, which throws, cannot arise.
- AuthRoutes.FindByEmail: emails match by exact string equality. The source's `findOne` and the unique email index compare under the column's collation, which is case-insensitive under MySQL's default (server/models/index.js:13-22 sets none). So the model lets "Alice@x.com" register beside "alice@x.com", where the source answers 400, and refuses a login whose email differs only in case, where the source finds the user. `Store.UniqueEmails`, `AuthRoutes.Login` and `AuthRoutes.Register` inherit this.
- `LIKE` is modelled as plain substring matching. Wildcards inside filter values and case-insensitive collation are not modelled.
- JobRoutes.ListJobs: the result is a map from key to row, so the row order of `findAll` is not modelled. The recruiter `include` is also left off the bodies: `name` on the public listing (server/routes/jobs.js:23), and `name` and `email` on the admin listing and on approve (server/routes/admin.js:18 and 37).
- DeleteJob removes only the job row. Foreign-key behaviour on the application rows (cascade, or refusal) is not modelled.
- Apply's read-then-write duplicate check is safe only because the model is sequential. The race between two concurrent applies is not modelled.
- Email sending (server/utils/notifier.js) is I/O. No server route for messages, notifications or application status exists in the modelled files.
- User columns that none of the modelled routes use are omitted: avatar, skills, experiences, education, timestamps.
- `handleUnbanUser` is not defined anywhere in the dashboard, so the Unban button cannot be modelled.
- The 2000/500 character counters are display only.
- Rendering, animation and the bell's open/close toggle are not modelled.
- localStorage becomes a token parameter.
- `setInterval` polling is not modelled; each poll is one call of the fetch method.
- Each async handler is modelled as one atomic step on the state it was called with. That misses a difference in the source. The handlers that write a list captured when they were called (client/src/components/messages.jsx:58, client/src/pages/MyApplications.jsx:32, client/src/pages/AdminDashboard.jsx:40, 51 and 64) can overwrite a poll or another update that lands while their request is pending. The `prev =>` updaters in client/src/components/notification.jsx:49-54 and 69-70 apply to the newest state instead.
- The order in which timers fire is not enforced. The timer methods are called by the environment.
- AdminDashboardPage.AdminDashboard.FetchData: when both requests fail, the contract says only that `error` is the text of one of them. Promise.all rejects with whichever request fails first, and that order is not modelled.
