# Task manager core, modelled in Dafny

This project models the logic of a small task manager. It has a React
client and a Flask backend with a MySQL table for users and one for tasks.
The model covers:

- **The dashboard page** (`dashboard.dfy`). The page keeps its task list in
  memory. It creates (prepends), updates (merges), deletes (filters) and
  toggles tasks. It saves the profile and counts tasks for the right-hand panel.
- **The right-hand panel** (`rightbar.dfy`). It shows the completion gauge
  and the avatar initial.
- **The client API module** (`api.dfy`). The session sits in the browser's
  key-value storage. The request wrapper adds the bearer header and turns a
  failed status into an error message. The list path is built from the query
  string. Login, register and profile update store what the server returns.
- **The server's user model** (`user.dfy`). It holds the e-mail, password
  and name validators and the order of the checks in `create_user`. It
  covers `update_profile` and `to_dict`.
- **The server's task routes** (`task_routes.dfy`). Create normalises its
  input. Update builds its SET list in a fixed order. List adds optional
  filters. Update and delete answer 404 for a task the user does not own.
- **The profile dialog, the registration page and the create-task dialog**
  (`profile.dfy`, `register.dfy`, `taskmodal.dfy`). Each runs a chain of
  checks where the first failure wins, resets on open and clears its error
  on edit.
- **Cross-module lemmas** (`flows.dfy`). A dialog payload flows into the
  list. The counts flow into the gauge. The client's password and name
  checks are compared with the server's.

`common.dfy` holds shared pieces:

- a JSON value type and JavaScript truthiness;
- the two whitespace sets, because JavaScript `trim()` and Python `strip()`
  differ;
- ASCII case mapping.

State that the source changes in place is a class with `modifies` clauses:

- the dashboard page;
- the API client, whose storage is a `map<string, string>` field;
- the profile dialog, the registration page and the task dialog;
- the user object;
- the `users` and `tasks` tables, each a sequence of rows.

Pure code is functions with lemmas. The loop that builds the SET list of
`update_task` is a method with invariants, tied to a specification
function.

Some things outside the system are parameters:

- the server's reply;
- the JSON codec (`JSON.stringify` and `JSON.parse`);
- the date parsers (`strptime`, `fromisoformat`) and `toDateString`;
- bcrypt hashes, fresh ids and clock values.

SQL text is a sequence of literal pieces and `%s` placeholders. That lets
the model state that the number of placeholders equals the number of
parameters.

## Model

| member | source | states |
|---|---|---|
| Common.TrimStartShape | fontend/taskManagement/src/componnets/Profile/profile.jsx:41-42 | the leading-whitespace cut removes a prefix made only of whitespace and leaves a suffix that does not start with whitespace |
| Common.TrimEndShape | fontend/taskManagement/src/componnets/Profile/profile.jsx:41-42 | the trailing-whitespace cut removes a suffix made only of whitespace and leaves a prefix that does not end with whitespace |
| Common.Trim | fontend/taskManagement/src/componnets/Profile/profile.jsx:41-42 | `trim()` and `strip()` never lengthen their input; what they cut is stated by `TrimShape` |
| Common.TrimShape | fontend/taskManagement/src/componnets/Profile/profile.jsx:41-42 | the trim is a contiguous slice of the input with only whitespace cut from both ends, and it neither starts nor ends with whitespace (JavaScript and Python whitespace sets) |
| Common.TrimEmptyIff | fontend/taskManagement/src/componnets/Profile/profile.jsx:41 | a string trims to empty exactly when it is all whitespace, so `!s.trim()` rejects exactly the blank strings |
| Common.Lower | backend/routes/tasks.py:22-23 | `lower()` keeps the length and lowercases each character |
| Rightbar.CompletedPct | fontend/taskManagement/src/componnets/Rightbar/Rightbar.jsx:11 | 0 for no tasks; otherwise the percentage rounded half up, pinned between two integer inequalities |
| Rightbar.PctInRange | fontend/taskManagement/src/componnets/Rightbar/Rightbar.jsx:11 | with completed ≤ total the gauge lies in 0..100 |
| Rightbar.PctExtremes | fontend/taskManagement/src/componnets/Rightbar/Rightbar.jsx:11 | all completed gives 100 and none completed gives 0 |
| Rightbar.PctMonotone | fontend/taskManagement/src/componnets/Rightbar/Rightbar.jsx:11 | for a fixed total the gauge never decreases as the completed count grows |
| Rightbar.AvatarInitial | fontend/taskManagement/src/componnets/Rightbar/Rightbar.jsx:16 | one character: the upper-cased first letter of the name, or "U" for a missing or empty name |
| Dashboard.Merge | fontend/taskManagement/src/pages/Dashboard/dashboard.jsx:75 | the spread `{ ...t, ...payload }`: each key the payload has wins, every other key keeps the task's value |
| Dashboard.Created | fontend/taskManagement/src/pages/Dashboard/dashboard.jsx:65-72 | the new task goes to the front and the earlier tasks follow unchanged; `completed` is false and the id is the fresh id unless the payload supplies either |
| Dashboard.Updated | fontend/taskManagement/src/pages/Dashboard/dashboard.jsx:74-76 | same length; entries with the id are merged with the payload, all others are unchanged |
| Dashboard.Deleted | fontend/taskManagement/src/pages/Dashboard/dashboard.jsx:78-80 | the `filter` never lengthens the list; which tasks remain is stated by `DeletedMembers` |
| Dashboard.DeletedMembers | fontend/taskManagement/src/pages/Dashboard/dashboard.jsx:78-80 | a hard delete: a task remains exactly when it was in the list under another id, so no entry with the id is left |
| Dashboard.Toggled | fontend/taskManagement/src/pages/Dashboard/dashboard.jsx:82-86 | same length; entries with the id have `completed` flipped, all others are unchanged |
| Dashboard.CountsPartition | fontend/taskManagement/src/pages/Dashboard/dashboard.jsx:98-100 | every task is counted exactly once, as completed or as open |
| Dashboard.StatsOf | fontend/taskManagement/src/pages/Dashboard/dashboard.jsx:96-101 | completed is the number of completed tasks and open the number of open ones (the two `filter` counts), they add up to the list length, which is total, and inProgress = open |
| Dashboard.UpdateUnknownId | fontend/taskManagement/src/pages/Dashboard/dashboard.jsx:74-76 | an update with an id not in the list leaves it identical |
| Dashboard.DeleteUnknownId | fontend/taskManagement/src/pages/Dashboard/dashboard.jsx:78-80 | a delete with an id not in the list leaves it identical |
| Dashboard.DeleteKeepsOrder | fontend/taskManagement/src/pages/Dashboard/dashboard.jsx:79 | delete distributes over concatenation, so the remaining tasks keep their order |
| Dashboard.DeleteIdempotent | fontend/taskManagement/src/pages/Dashboard/dashboard.jsx:78-80 | deleting the same id twice is the same as deleting it once |
| Dashboard.ToggleTwice | fontend/taskManagement/src/pages/Dashboard/dashboard.jsx:82-86 | toggling the same id twice restores the list |
| Dashboard.ToggleStats | fontend/taskManagement/src/pages/Dashboard/dashboard.jsx:82-86 | with unique ids, a toggle moves the completed count by exactly one, in the direction of the flip |
| Dashboard.ToggleUnknownId | fontend/taskManagement/src/pages/Dashboard/dashboard.jsx:82-86 | a toggle with an id not in the list leaves it identical |
| Dashboard.CreateKeepsIdsUnique | fontend/taskManagement/src/pages/Dashboard/dashboard.jsx:65-72 | a create with a fresh id and no id in the payload keeps ids unique |
| Dashboard.EditsKeepIdsUnique | fontend/taskManagement/src/pages/Dashboard/dashboard.jsx:74-86 | update without an id in the payload, and toggle, keep ids unique |
| Dashboard.DashboardPage.constructor | fontend/taskManagement/src/pages/Dashboard/dashboard.jsx:16-40 | the seeded user and the two seeded open tasks |
| Dashboard.DashboardPage.HandleCreateTask | fontend/taskManagement/src/pages/Dashboard/dashboard.jsx:65-72 | the list becomes `Created(old list, newId, payload)` and the user is unchanged |
| Dashboard.DashboardPage.HandleUpdateTask | fontend/taskManagement/src/pages/Dashboard/dashboard.jsx:74-76 | the list becomes `Updated(old list, id, payload)` and the user is unchanged |
| Dashboard.DashboardPage.HandleDeleteTask | fontend/taskManagement/src/pages/Dashboard/dashboard.jsx:78-80 | the list becomes `Deleted(old list, id)` and the user is unchanged |
| Dashboard.DashboardPage.HandleToggleComplete | fontend/taskManagement/src/pages/Dashboard/dashboard.jsx:82-86 | the list becomes `Toggled(old list, id)` and the user is unchanged |
| Dashboard.DashboardPage.SaveProfile | fontend/taskManagement/src/pages/Dashboard/dashboard.jsx:89-91 | name and e-mail replaced, id kept, tasks unchanged |
| Dashboard.DashboardPage.CurrentStats | fontend/taskManagement/src/pages/Dashboard/dashboard.jsx:97-102 | the counts of the current list, partitioned into open and completed |
| Api.TokenIn | fontend/taskManagement/src/api/api.js:9-11 | the stored token, or "" when none is stored |
| Api.UserIn | fontend/taskManagement/src/api/api.js:22-25 | null when nothing, the empty text, or text that does not parse is stored |
| Api.IsOk | fontend/taskManagement/src/api/api.js:49 | `res.ok`: exactly the statuses whose hundreds digit is 2 |
| Api.FailureMessage | fontend/taskManagement/src/api/api.js:51 | the first truthy of `message`, `error`, and "Request failed (status)" |
| Api.Settle | fontend/taskManagement/src/api/api.js:42-55 | a network rejection rethrows its message; otherwise the call returns exactly on a 2xx status, with the parsed body or null, and throws `FailureMessage` else |
| Api.UnauthorizedMessage | fontend/taskManagement/src/api/api.js:49-52 | a 401 whose body has a message fails with that message |
| Api.FallbackMessage | fontend/taskManagement/src/api/api.js:51 | a failed status with neither key fails with "Request failed (" + status + ")" |
| Api.ListPath | fontend/taskManagement/src/api/api.js:110-111 | "/tasks" exactly when the query string is empty, otherwise "/tasks?" followed by it |
| Api.ListResult | fontend/taskManagement/src/api/api.js:113 | `data.tasks` when truthy, otherwise the empty array |
| Api.StoreAuth | fontend/taskManagement/src/api/api.js:67-68 | the token is stored only for a truthy `access_token` and the user only for a truthy `user`; all other keys are unchanged |
| Api.LoginRoundTrip | fontend/taskManagement/src/api/api.js:78-79 | after a login reply with a token and a user, `getToken` returns the token and `getUser` the user (given a faithful JSON codec) |
| Api.ApiClient.constructor | fontend/taskManagement/src/api/api.js:2 | the base URL is the configured one, or the local default when it is empty |
| Api.ApiClient.GetToken | fontend/taskManagement/src/api/api.js:9-11 | `TokenIn` of the storage |
| Api.ApiClient.GetUser | fontend/taskManagement/src/api/api.js:22-25 | `UserIn` of the storage |
| Api.ApiClient.SetToken | fontend/taskManagement/src/api/api.js:12-14 | a falsy token leaves the storage unchanged; otherwise it is stored and `getToken` returns it |
| Api.ApiClient.SetUser | fontend/taskManagement/src/api/api.js:19-21 | a falsy user leaves the storage unchanged; otherwise its JSON text is stored and `getUser` gives it back |
| Api.ApiClient.ClearToken | fontend/taskManagement/src/api/api.js:15-18 | both keys are removed, `getToken` is "" and `getUser` is null |
| Api.ApiClient.BuildHeaders | fontend/taskManagement/src/api/api.js:29-33 | JSON content type unless the caller overrides it; the bearer header only with `auth` and a token, and it overrides the caller's; other caller headers are kept |
| Api.ApiClient.Request | fontend/taskManagement/src/api/api.js:28-56 | the URL, the verb, the stringified body and the headers of `BuildHeaders` (content type, bearer header, the caller's other headers) handed to `fetch`, and the outcome `Settle(reply)` |
| Api.ApiClient.StoreAuthReply | fontend/taskManagement/src/api/api.js:67-68 | a failure leaves the storage; a success stores `StoreAuth` of the data |
| Api.ApiClient.ApiLogin | fontend/taskManagement/src/api/api.js:73-81 | POST /auth/login with only the JSON content-type header and the e-mail and password as body; the storage is updated by `StoreAuth` only on success |
| Api.ApiClient.ApiRegister | fontend/taskManagement/src/api/api.js:61-70 | POST /auth/register with only the JSON content-type header and the name, e-mail and password as body; the storage is updated by `StoreAuth` only on success |
| Api.ApiClient.ApiUpdateProfile | fontend/taskManagement/src/api/api.js:90-98 | PUT /auth/profile with the JSON content type, the bearer header when a token is stored, and the name and e-mail as body; on success the returned user is stored when truthy and returned |
| Api.ApiClient.ApiListTasks | fontend/taskManagement/src/api/api.js:109-114 | GET of `ListPath(qs)` with no body, the JSON content type and the bearer header when a token is stored; a success gives `ListResult` of the data |
| UserModel.ValidateEmail | backend/modules/user.py:21-24 | an accepted address has at least six characters and an `@`; its exact language is stated by `EmailLanguage` |
| UserModel.WholeMatchIsPattern | backend/modules/user.py:23-24 | the executable recogniser accepts exactly the strings of the pattern `[A-Za-z0-9._%+-]+@[A-Za-z0-9.-]+\.[A-Za-z]{2,}` |
| UserModel.EmailLanguage | backend/modules/user.py:21-24 | `re.match` with `$` accepts the pattern's strings and those strings followed by one newline, nothing else |
| UserModel.EmailExamples | backend/modules/user.py:21-24 | "a@b.co" and "a@b.co\n" pass; a one-letter top-level domain, an empty local part and a leading space fail |
| UserModel.ValidatePassword | backend/modules/user.py:27-33 | valid exactly for lengths 6..128; the too-short message is chosen below 6 and the too-long one above 128 |
| UserModel.ValidateName | backend/modules/user.py:36-42 | valid exactly when the stripped name has at least 2 characters and the unstripped name at most 100; the short message wins |
| UserModel.PaddedNameRejected | backend/modules/user.py:38-41 | a name whose stripped form is 2 characters but which is padded to 101 is rejected |
| UserModel.NormalizeEmail | backend/modules/user.py:100 | `email.lower().strip()` is no longer than the address and neither starts nor ends with whitespace |
| UserModel.FirstActiveWithEmail | backend/modules/user.py:99-100 | a found row is in the table, active and has the address; None means no active row has it |
| UserModel.FindByEmail | backend/modules/user.py:95-113 | a found row is active and has the normalised address; None means no active row has it |
| UserModel.FindAppended | backend/modules/user.py:85 | a row appended under an address no active row had is the one found for it |
| UserModel.CreateUserCheck | backend/modules/user.py:59-71 | the first failure in the order name, e-mail format, password, duplicate address; None exactly when all pass |
| UserModel.CaseInsensitiveNormal | backend/modules/user.py:100 | addresses that differ only in letter case normalise to the same text, so duplicates are caught regardless of case |
| UserModel.UserTable.CreateUser | backend/modules/user.py:55-88 | a failed check returns its message and changes nothing; otherwise one row with the stripped name and normalised address is added and the lookup by address returns it |
| UserModel.UpdatedRows | backend/modules/user.py:178-182 | the row with the id gets the applied columns; all other rows are unchanged |
| UserModel.User.FromRow | backend/modules/user.py:104-112 | the object's fields are the row's |
| UserModel.User.UpdateProfile | backend/modules/user.py:158-186 | a valid name is applied to the object first; a valid address taken by another user fails with nothing written; otherwise what was applied is written, and with nothing applicable the call fails with "No valid updates provided" |
| UserModel.User.ToDict | backend/modules/user.py:192-201 | exactly the six public keys, never the password hash, with null for missing time stamps |
| TaskRoutes.StrOr | backend/routes/tasks.py:20-23 | `data.get(key) or default`: the value when it is a non-empty string, the default otherwise |
| TaskRoutes.ParseDue | backend/routes/tasks.py:34-37 | ten characters take the `YYYY-MM-DD` parser, anything else the ISO parser |
| TaskRoutes.OkReply | backend/routes/tasks.py:8-9 | the data's keys plus `success`, which is true unless the data overrides it, with the given status |
| TaskRoutes.ErrReply | backend/routes/tasks.py:11-12 | exactly `success: false` and the message, with the given status |
| TaskRoutes.DueOf | backend/routes/tasks.py:31-39 | no due date exactly when `due_date` is missing, null or empty |
| TaskRoutes.NormalizeCreate | backend/routes/tasks.py:19-44 | a blank stripped title fails first with 400 "title is required", then a bad due date with 400; otherwise the stripped title, description or None, lowercased status and priority with their defaults, and the parsed due date |
| TaskRoutes.CreateDefaults | backend/routes/tasks.py:20-23 | a task given only a title gets status "pending", priority "medium", no description and no due date |
| TaskRoutes.SetKeys | backend/routes/tasks.py:84-87 | the updatable keys whose value is present and not null, and no others |
| TaskRoutes.SetValues | backend/routes/tasks.py:84-87 | one parameter per set key |
| TaskRoutes.ValuesMatchKeys | backend/routes/tasks.py:84-87 | the i-th parameter is the untouched value of the i-th set key |
| TaskRoutes.JoinHoles | backend/routes/tasks.py:111 | joining one-placeholder clauses with a placeholder-free separator gives one placeholder per clause |
| TaskRoutes.UpdateHolesMatch | backend/routes/tasks.py:105-111 | the UPDATE statement has exactly as many placeholders as parameters |
| TaskRoutes.SetKeysAscending | backend/routes/tasks.py:84 | choosing the set keys keeps the fixed order |
| TaskRoutes.ColumnsInFixedOrder | backend/routes/tasks.py:84-103 | the SET columns follow the order title, description, status, priority, due_date |
| TaskRoutes.CollectSetFields | backend/routes/tasks.py:82-87 | the loop builds one clause per set key and the matching parameters |
| TaskRoutes.UpdatedColumns | backend/routes/tasks.py:84-103 | exactly the updatable keys set to a non-null value, plus `due_date` whenever the body has that key; at most five columns |
| TaskRoutes.UpdateValues | backend/routes/tasks.py:87-103 | with a readable due date, one value per column; the `due_date` column takes the parsed date, or NULL for a falsy value |
| TaskRoutes.ClauseHoles | backend/routes/tasks.py:86 | each `key=%s` clause holds one placeholder |
| TaskRoutes.UpdateSql | backend/routes/tasks.py:111 | the UPDATE statement holds one placeholder per column and two for the task id and the user id |
| TaskRoutes.BuildUpdate | backend/routes/tasks.py:79-111 | a bad due date fails with 400 first, no fields fails with 400 "No fields to update"; otherwise the statement and the values followed by task id and user id, with placeholders matching parameters |
| TaskRoutes.Patched | backend/routes/tasks.py:84-103 | each set key replaces its column (title, description, status, priority), a readable `due_date` writes the parsed date and a falsy one clears it, and id, owner and creation time are kept |
| TaskRoutes.FindTask | backend/routes/tasks.py:114-116 | a found row has the id and the owner; None exactly when no row has both |
| TaskRoutes.PatchedRows | backend/routes/tasks.py:111-112 | only the user's row with the id is patched; all others are unchanged |
| TaskRoutes.WithoutTask | backend/routes/tasks.py:128 | exactly the rows that are not the user's row with the id remain |
| TaskRoutes.PatchMissingIsNoop | backend/routes/tasks.py:111-116 | an update of a task the user does not own writes nothing |
| TaskRoutes.FindPatched | backend/routes/tasks.py:114-117 | the row found after the UPDATE is the patched row found before it |
| TaskRoutes.BuildListQuery | backend/routes/tasks.py:57-69 | the status filter and then the priority filter, each only when non-empty, always ordered by `created_at DESC`; placeholders match parameters |
| TaskRoutes.NewIdOf | backend/routes/tasks.py:47 | a row count gives no id; a dictionary gives its `lastrowid` exactly when it has one |
| TaskRoutes.CreatedReply | backend/routes/tasks.py:47-51 | status 201; without an id read back, the reply is `id: null` |
| TaskRoutes.RowCountReplyHasNoTask | backend/routes/tasks.py:46-51 | as written, an insert answered by a row count leaves no id, so the reply never carries the task |
| TaskRoutes.CreateReplyCarriesTask | backend/routes/tasks.py:47-51 | with the inserted id read back and fresh for the user, the reply carries exactly the new row |
| TaskRoutes.TaskTable.CreateTask | backend/routes/tasks.py:14-51 | a rejected input gives its 400 reply and no insert; otherwise one normalised row is added and the reply is built from the id read back from the helper's answer: `id: null` for a row count, the new row when its fresh id is read back |
| TaskRoutes.TaskTable.UpdateTask | backend/routes/tasks.py:75-117 | the 400 answers first with nothing written; then the user's row is patched; 404 "Task not found" with nothing written when the user has no such task, and otherwise 200 with the patched row |
| TaskRoutes.TaskTable.DeleteTask | backend/routes/tasks.py:119-129 | 404 "Task not found" and no change when the user has no such task; otherwise its rows are removed, none with that id is left, and the reply is `deleted: id` |
| Profile.FailureText | fontend/taskManagement/src/componnets/Profile/profile.jsx:48 | the error's message when non-empty, the fallback otherwise |
| Profile.ProfileCheck | fontend/taskManagement/src/componnets/Profile/profile.jsx:41-42 | a blank trimmed name is reported before a blank trimmed e-mail; None exactly when both hold text |
| Profile.ProfileCheckPasses | fontend/taskManagement/src/componnets/Profile/profile.jsx:41-42 | a name and an e-mail that are not all whitespace pass |
| Profile.PasswordCheck | fontend/taskManagement/src/componnets/Profile/profile.jsx:54-57 | the first failure in the order current, new, new shorter than 6, mismatch; None exactly when all pass |
| Profile.ProfileModal.constructor | fontend/taskManagement/src/componnets/Profile/profile.jsx:11-14 | empty forms, password section hidden, no error |
| Profile.ProfileModal.Open | fontend/taskManagement/src/componnets/Profile/profile.jsx:16-25 | the form is filled from the user, "" for a missing user; the password form, the toggle and the error are reset |
| Profile.ProfileModal.Change | fontend/taskManagement/src/componnets/Profile/profile.jsx:27-31 | one profile field takes the value, the error is cleared, nothing else changes |
| Profile.ProfileModal.ChangePw | fontend/taskManagement/src/componnets/Profile/profile.jsx:33-37 | one password field takes the value, the error is cleared, nothing else changes |
| Profile.ProfileModal.TogglePasswordSection | fontend/taskManagement/src/componnets/Profile/profile.jsx:113 | the password section flips, nothing else changes |
| Profile.ProfileModal.SaveProfile | fontend/taskManagement/src/componnets/Profile/profile.jsx:39-50 | a failed check sets its message and calls nothing; otherwise the trimmed name and e-mail are passed on, the dialog closes exactly on success, and a failure sets its message or "Failed to update profile" |
| Profile.ProfileModal.SavePassword | fontend/taskManagement/src/componnets/Profile/profile.jsx:52-68 | the same for the password checks; current and new passwords are passed as typed, with "Failed to change password" as fallback |
| Register.RegisterCheck | fontend/taskManagement/src/pages/Register/register.jsx:55-77 | the first failure in the order name, e-mail, empty password, short password; None exactly when the password has at least 6 characters and name and e-mail hold text |
| Register.RegisterRequest | fontend/taskManagement/src/pages/Register/register.jsx:31-38 | a JSON POST to the register URL of the form as typed, untrimmed |
| Register.RegisterOutcome | fontend/taskManagement/src/pages/Register/register.jsx:40-46 | a rejection rethrows; an ok reply returns its data; a failed one throws `message` or "Registration failed" |
| Register.StoreRegistration | fontend/taskManagement/src/pages/Register/register.jsx:83-86 | with a truthy token, the token and the user's JSON text ("undefined" for no user) are stored; otherwise nothing changes |
| Register.AgreesWithApiClient | fontend/taskManagement/src/pages/Register/register.jsx:83-86 | with a token and a user the page stores what the API client's register call stores |
| Register.TokenWithoutUser | fontend/taskManagement/src/pages/Register/register.jsx:85 | with a token but no user the page stores "undefined" where the API client stores nothing |
| Register.RegisterPage.constructor | fontend/taskManagement/src/pages/Register/register.jsx:12-18 | an empty form, no error, not loading |
| Register.RegisterPage.HandleChange | fontend/taskManagement/src/pages/Register/register.jsx:21-28 | one field takes the value and the error is cleared |
| Register.RegisterPage.HandleSubmit | fontend/taskManagement/src/pages/Register/register.jsx:49-97 | a failed check sets its message and sends nothing; otherwise the form is sent, success stores the session and leads to login, a failure sets its message or the fallback; `loading` is false on every exit |
| TaskModal.PayloadOf | fontend/taskManagement/src/componnets/TaskModel/TaskModel.jsx:41-47 | trimmed title and description, the selected priority, the due date's text or "Today", and `completed` exactly for "yes" |
| TaskModal.TaskModalDialog.constructor | fontend/taskManagement/src/componnets/TaskModel/TaskModel.jsx:5-11 | the blank form: priority "low", completed "no" |
| TaskModal.TaskModalDialog.Open | fontend/taskManagement/src/componnets/TaskModel/TaskModel.jsx:17-22 | opening resets to the blank form |
| TaskModal.TaskModalDialog.HandleChange | fontend/taskManagement/src/componnets/TaskModel/TaskModel.jsx:32-35 | one field takes the value |
| TaskModal.TaskModalDialog.HandleSubmit | fontend/taskManagement/src/componnets/TaskModel/TaskModel.jsx:37-49 | a blank trimmed title neither creates nor closes; otherwise the payload is created and then the dialog closes |
| TaskModal.BlankTitleIgnored | fontend/taskManagement/src/componnets/TaskModel/TaskModel.jsx:39 | a title of only whitespace trims to empty and is ignored |
| TaskModal.DefaultPayload | fontend/taskManagement/src/componnets/TaskModel/TaskModel.jsx:41-47 | the reset form with only a title gives a low-priority open task due "Today" with no description |
| Flows.DialogCreate | fontend/taskManagement/src/pages/Dashboard/dashboard.jsx:65-72 | a task created from the dialog is first, with the fresh id and trimmed title; the rest is the old list, and the completed count rises by one exactly for "yes" |
| Flows.DialogCreateKeepsIdsUnique | fontend/taskManagement/src/pages/Dashboard/dashboard.jsx:65-72 | a dialog-created task with a fresh id keeps ids unique |
| Flows.GaugeInRange | fontend/taskManagement/src/componnets/Rightbar/Rightbar.jsx:11 | for any task list the gauge built from the dashboard's counts lies in 0..100 |
| Flows.ToggleMovesGauge | fontend/taskManagement/src/componnets/Rightbar/Rightbar.jsx:11 | completing an open task never lowers the gauge; reopening a completed one never raises it |
| Flows.PasswordChecksAgree | backend/modules/user.py:27-33 | a password the registration page accepts passes the server exactly when it has at most 128 characters, and fails as too long otherwise |
| Flows.OneLetterName | backend/modules/user.py:36-42 | a one-letter name passes the page's check but fails the server's name check |

## Left out

- `fetch`, `localStorage`, `JSON.stringify` and `JSON.parse` are not modelled. Neither are `new Date(...).toDateString()` and `URLSearchParams`. Each is a parameter. A reply is a value, the storage is a map, the codec is a pair of functions, and the query string is given already encoded.
- `strptime`, `fromisoformat` and `re` are not modelled. The date parsers are parameters. The e-mail pattern is an explicit recogniser, proved equal to the pattern's language.
- The database is not modelled. Each table is a sequence of rows. Connections, commits and exceptions are out, so are the 500 replies from exceptions and MySQL's ENUM checks on status and priority. MySQL's case-insensitive collation of `email = %s` is out: addresses are compared after normalisation. `backend/database.py` and `backend/utils/database.py` are not part of this model: what the helper answers to an INSERT is a parameter of `TaskRoutes.TaskTable.CreateTask`, and the Findings row shows what a row-count answer leads to.
- JWT identity, Flask routing and CORS are not modelled. The user id is a parameter. The task routes are modelled although `app.py` never registers their blueprint.
- Hashing is a parameter. Fresh ids (`crypto.randomUUID`, `Date.now`, auto-increment keys) are parameters too. Uniqueness is a precondition where a lemma needs it.
- Rightbar.CompletedPct: computes exact half-up integer rounding, not `Math.round` over a floating-point quotient; the two can differ where the floating-point division and product are inexact near a half.
- Common.Lower: maps ASCII letters only, not Python's full Unicode `lower()`; likewise the avatar's `toUpperCase()`.
- Strings are sequences of characters: JavaScript's `length` counts UTF-16 code units, so lengths of text outside the Basic Multilingual Plane differ.
- TaskRoutes.NormalizeCreate: request values are strings or null only; a number or boolean where a string is expected makes the source raise, and that path is not modelled.
- TaskRoutes.BuildUpdate: request values are strings or null only; the source writes a non-string title, description, status or priority unchanged, and a truthy non-string `due_date` makes `len()` raise inside the `try`, giving 400 "Invalid due_date format". Neither path is modelled.
- TaskRoutes.TaskTable.UpdateTask: rests on `BuildUpdate`, so the same non-string values are not modelled.
- Common.Trim: its own contract gives only the length bound, so that callers do not carry the rest; the cut itself is stated by `Common.TrimShape`.
- TaskRoutes.BuildListQuery: builds the statement and parameters; executing it and the order of the rows returned are not modelled.
- Register.RegisterOutcome: a failed reply whose body is null makes the source throw a TypeError on `data.message`; the model gives "Registration failed" instead.
- Register.RegisterPage.HandleSubmit: an ok reply whose body is null makes the source throw on `response.access_token`; the model treats it as a reply without a token. `alert` and `navigate("/login")` are the `toLogin` flag.
- Api.ApiClient.BuildHeaders: header names are compared exactly, not case-insensitively as `fetch` does.
- Other API wrappers are not modelled: `apiGetProfile`, `apiVerifyToken`, `apiCreateTask`, `apiUpdateTask` and `apiDeleteTask`. Each is `request` plus a field read, and none is named in the core.
- The task dialog ignores the `mode`, `initialTask` and `onUpdate` props the dashboard passes, so there is no edit path.
- React rendering is not modelled: async scheduling, the ESC key handler, focus, and the page's `overflow` style. Each handler is one sequential step.

## Findings

| source | as written | input that shows it | evidently intended | confidence | as-written member | corrected member |
|---|---|---|---|---|---|---|
| backend/routes/tasks.py:46-51 | `new_id` is read from `res["lastrowid"]`, but the database helper answers an INSERT with `cursor.rowcount`, an integer (backend/database.py:47), so `new_id` is always None and the SELECT by id finds nothing | any valid create, e.g. `{"title": "a"}`: the reply is `{"success": true, "id": null}` with 201 | the reply carries the created row as `task` | high (not executed) | TaskRoutes.RowCountReplyHasNoTask | TaskRoutes.CreateReplyCarriesTask |
