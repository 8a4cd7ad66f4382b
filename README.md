# TaskMind task tracker: request handlers, task schema and client sort in Dafny

This project models the core of the TaskMind task tracker: an Express/Mongoose backend that
registers users, logs them in with JSON Web Tokens, edits profiles and resets passwords by mail,
and keeps each user's tasks, plus the React page that lists the tasks and re-sorts them by
priority.

- `common.dfy`: `Option`, `Result`, ObjectIds as natural numbers, and the numerals that put ids
  and claims into URLs.
- `tokens.dfy`: `jwt.sign` and `jwt.verify` as the controller uses them: the `{ id }` payload,
  `iat`/`exp`, the 7-day and 1-hour lifetimes, signature checked before expiry.
- `auth.dfy`: the auth controller. The user collection is a `map<UserId, User>`. Login and
  forgot-password only read it and are pure functions. Register, profile update and reset write
  it: they are methods of the class `UserStore`, each proved equal to an outcome function whose
  contract states what the handler promises. Email uniqueness (the collection's unique index) is
  the store's invariant.
- `task_model.dfy`: the task schema: fields, the status and priority enumerations and their
  defaults, required fields, timestamps, and the document `save()` produces.
- `tasks.dfy`: the tasks controller. The listing builds a filter and a sort from the query string.
  `Find` models `Task.find(filter).sort(sort)` as a loop that inserts each selected document
  into an ordered sequence, using BSON's cross-type order. Create, update and delete are
  methods of `TaskStore`.
- `home_page.dfy`: the task list page: the filter state, the query string `fetchTasks` sends,
  the in-place priority re-sort of the fetched array (an insertion sort proved equal to a
  stable functional sort), and Clear Filters.

Behaviours of the code worth knowing:

- Tokens carry no purpose claim. A session token and a reset token differ only in `exp`, so
  an unexpired session token resets the password (`Auth.SessionTokenResetsPassword`).
- The controller passes the email to `findOne({ email })` unchanged. The model matches it
  exactly, on the assumption that the User schema does not normalise it (no `lowercase` or
  `trim` option).
- Login gives one reply for an unknown email and for a wrong password (`Auth.Login`).
- Forgot-password answers 404 for an unknown email. It answers 500 when the mail cannot be
  sent. It does not always acknowledge.
- Reset-password never cross-checks the `:id` path parameter. It updates the user named in
  the verified token.
- Reset-password verifies with `JWT_SECRET || "jwt_secret_key"`, but tokens are signed with
  `JWT_SECRET` alone. With the variable unset, no token can be issued, yet a token signed
  with the public fallback key resets any password (`Auth.FallbackKeyAcceptsForgedToken`).
- A signing failure (unset `JWT_SECRET`) is a 500 raised after the user was created or saved.
  The write therefore stays.

## Model

| member | source | states |
|---|---|---|
| Tokens.Sign | backend/src/controllers/authController.js:10-12 | signing fails exactly when the secret is empty; a token carries the given id, the signing key, `iat` = now and `exp - iat` = the lifetime |
| Tokens.Verify | backend/src/controllers/authController.js:132-135 | a token verifies iff its key is the verifying key and now < exp, and then yields its id; a wrong key is reported as a bad signature before any expiry check |
| Tokens.SessionTokenWindow | backend/src/controllers/authController.js:10-12 | a session token verifies for exactly 604800 seconds (7 days) after issue and is reported expired afterwards |
| Tokens.ResetTokenWindow | backend/src/controllers/authController.js:99-101 | a reset token verifies for exactly 3600 seconds (1 hour) after issue and is reported expired afterwards |
| Tokens.NoPurposeClaim | backend/src/controllers/authController.js:99-101 | a reset token and a session token issued together agree on every claim except `exp`, which differs by 601200 seconds: nothing marks a token's purpose |
| Tokens.TokenText | backend/src/controllers/authController.js:104 | the token as placed in the reset link contains no '/' |
| Auth.Hash | backend/src/controllers/authController.js:138 | a freshly computed digest accepts the password it was computed from |
| Auth.HashMatchesOnlyItsPassword | backend/src/controllers/authController.js:138 | a digest accepts a password iff it is the hashed one |
| Auth.VerifyKey | backend/src/controllers/authController.js:134 | the verifying key is never empty and is JWT_SECRET whenever that is set |
| Auth.FindByEmail | backend/src/controllers/authController.js:18 | finds a user iff one holds exactly that email, and the one found holds it |
| Auth.RegisterOutcome | backend/src/controllers/authController.js:15-33 | 400 "User already exists" iff the email is in use, with the store unchanged; otherwise exactly the new id is added, holding name, email and a digest of the password, and the rest is untouched; 201 iff the email is fresh and JWT_SECRET is set, and 500 "Server error" for a fresh email without JWT_SECRET; a 201 answers the new id, name, email and the 7-day session token signed for the new id now; emails stay unique |
| Auth.UserStore.RegisterUser | backend/src/controllers/authController.js:15-33 | the handler's reply and new store are those of RegisterOutcome; keeps emails unique |
| Auth.Login | backend/src/controllers/authController.js:35-53 | 401 "Invalid email or password" iff no user with that email accepts the password, so an unknown email and a wrong password get the same reply; otherwise 200 with the matching user's id, name, email and the 7-day session token signed for that id now, or 500 "Server error" without a secret |
| Auth.UpdateProfileOutcome | backend/src/controllers/authController.js:66-85 | 404 with no change for a missing user; 500 with no change when another user holds the resulting email; otherwise the store is exactly the old one with the caller's name and email set to the request value when non-empty and kept otherwise, saved even when the token then cannot be signed, which answers 500 "Server error"; ids, other users and every password digest are untouched; 200 iff the user exists, a secret is set and no other user holds the resulting email, answering the saved fields and the 7-day session token signed for the same id now; emails stay unique |
| Auth.UserStore.UpdateProfile | backend/src/controllers/authController.js:66-85 | the handler's reply and new store are those of UpdateProfileOutcome; keeps emails unique |
| Auth.IdText | backend/src/controllers/authController.js:104 | the id as placed in the reset link is non-empty and contains no '/' |
| Auth.ForgotPassword | backend/src/controllers/authController.js:87-124 | 400 "Email required" for an empty email and 404 for an unknown one, both without mail; a mail is built iff the email is known and a secret is set, sent from EMAIL_USER to the stored email under the subject "TaskMind - Password reset", carrying the link CLIENT_URL/reset-password/id/token for a token that verifies to that user for one hour; 200 "Reset link sent to email" iff that mail was delivered, and 500 "Server error" for a known email when JWT_SECRET is unset or delivery fails |
| Auth.ResetLinkRoundTrip | backend/src/controllers/authController.js:104 | the reset page's `/reset-password/:id/:token` route reads back exactly the user id and the token put into the link |
| Auth.ResetPasswordOutcome | backend/src/controllers/authController.js:126-156 | a failed verification or a missing password gives 400 "Invalid or expired token" with the store unchanged; 404 "User not found" iff the token verifies but names no user; 200 "Password reset successful" iff it names a user, and then only that user's digest changes, to a digest of the new password; the path id is never used |
| Auth.UserStore.ResetPassword | backend/src/controllers/authController.js:126-156 | the handler's reply and new store are those of ResetPasswordOutcome; keeps emails unique |
| Auth.SessionTokenResetsPassword | backend/src/controllers/authController.js:132-135 | once a reset token has expired, a session token issued at the same time still resets the user's password |
| Auth.FallbackKeyAcceptsForgedToken | backend/src/controllers/authController.js:132-135 | with JWT_SECRET unset no token can be signed, yet a token keyed with "jwt_secret_key" resets any existing user's password |
| Auth.LoginAfterRegister | backend/src/controllers/authController.js:38-39 | after registering a fresh email, logging in with the same email and password succeeds for the new user |
| Auth.LoginAfterReset | backend/src/controllers/authController.js:141-145 | after a reset, the new password logs in and any different old password is refused |
| TaskModel.NewTask | backend/src/models/Task.js:6-35 | a new task is saved iff title and content are non-empty, a due date is given and the (defaulted) status and priority are in their enums; the saved task satisfies the schema, belongs to the owner, copies the sent fields, defaults status to "pending" and priority to "medium", and has both timestamps set to the save time |
| TaskModel.DefaultsFillMissingEnums | backend/src/models/Task.js:16-31 | a body with only title, content and due date is saved with status "pending" and priority "medium" |
| TaskModel.EmptyStatusIsNotDefaulted | backend/src/models/Task.js:16-21 | an empty status that was sent is rejected, not replaced by the default |
| Tasks.BuildFilter | backend/src/controllers/tasksController.js:8-11 | a task matches iff it belongs to the caller and has the queried status and priority, each constraint applying only when its query value is non-empty |
| Tasks.BuildSort | backend/src/controllers/tasksController.js:13-19 | sorts by `sortBy`, ascending exactly when order is "asc"; with no `sortBy`, by createdAt descending |
| Tasks.TextLeTotal | backend/src/controllers/tasksController.js:22 | any two strings are comparable in binary lexicographic order |
| Tasks.TextLeTransitive | backend/src/controllers/tasksController.js:22 | binary lexicographic order on strings is transitive |
| Tasks.KeyLeTotal | backend/src/controllers/tasksController.js:22 | any two sort keys (missing, string, ObjectId, date) are comparable in BSON order |
| Tasks.KeyLeTransitive | backend/src/controllers/tasksController.js:22 | BSON order on sort keys is transitive |
| Tasks.InsertPermutes | backend/src/controllers/tasksController.js:22 | inserting a document into the sorted result adds exactly that document |
| Tasks.InsertKeepsOrder | backend/src/controllers/tasksController.js:22 | inserting a document keeps the result in sort order |
| Tasks.Find | backend/src/controllers/tasksController.js:22 | the query returns every selected document exactly once, in the sort's order |
| Tasks.ListedIffSelected | backend/src/controllers/tasksController.js:22 | a document is listed iff it is in the collection and the filter selects it |
| Tasks.TaskStore.GetAllTasks | backend/src/controllers/tasksController.js:3-29 | 200 with every caller-owned task matching the query exactly once, in the query's order; every listed task belongs to the caller |
| Tasks.GetTaskById | backend/src/controllers/tasksController.js:31-40 | 200 with the task iff the id exists, for any caller; 404 "Task not found!" otherwise |
| Tasks.CreateTaskOutcome | backend/src/controllers/tasksController.js:42-60 | 201 iff the schema accepts the body, adding exactly the new id holding the document the schema builds from the body (the five body fields copied, status and priority defaulted when not sent, both timestamps the save time), owned by the caller and schema-valid, and answering it; otherwise 500 with the store unchanged |
| Tasks.TaskStore.CreateTask | backend/src/controllers/tasksController.js:42-60 | the handler's reply and new store are those of CreateTaskOutcome |
| Tasks.UpdateTaskOutcome | backend/src/controllers/tasksController.js:62-79 | 404 "Task not found" with no change for an unknown id; otherwise 200 with only that task changed, each of title, content, status, due date and priority taking the sent value or keeping its own, owner and createdAt kept, updatedAt refreshed |
| Tasks.UpdateBypassesStatusEnum | backend/src/controllers/tasksController.js:65-69 | an update can store a status outside the schema's enumeration |
| Tasks.TaskStore.UpdateTask | backend/src/controllers/tasksController.js:62-79 | the handler's reply and new store are those of UpdateTaskOutcome |
| Tasks.DeleteTaskOutcome | backend/src/controllers/tasksController.js:81-102 | 404 for an unknown id and 403 for a task the caller does not own, both with no change; 200 iff the caller owns it, removing exactly that task and keeping all others |
| Tasks.TaskStore.DeleteTask | backend/src/controllers/tasksController.js:81-102 | the handler's reply and new store are those of DeleteTaskOutcome |
| Tasks.OwnershipCheckedOnlyOnDelete | backend/src/controllers/tasksController.js:89-94 | a non-owner is refused deletion (403, no change) but reads and updates the task exactly as its owner would |
| HomePage.QueryParams | frontend/src/pages/HomePage.jsx:23-27 | parameters are appended only for non-empty values, in the order status, priority, sortBy, order |
| HomePage.ServerReadsFilters | frontend/src/pages/HomePage.jsx:23-29 | the server reads back exactly the page's four filter values from the query string |
| HomePage.ClearedFiltersAskForDefaultListing | frontend/src/pages/HomePage.jsx:122-127 | after Clear Filters the server applies no status or priority constraint and sorts as it does with no sort given (createdAt descending) |
| HomePage.Rank | frontend/src/pages/HomePage.jsx:34-37 | the rank is at most 3 and positive iff the priority is one of low, medium, high |
| HomePage.RankOfPriorities | frontend/src/pages/HomePage.jsx:34-36 | low ranks 1, medium 2 and high 3 |
| HomePage.CompareIsWeightDifference | frontend/src/pages/HomePage.jsx:35-39 | the comparator is the difference of ranks ascending when order is "asc" and of reversed ranks otherwise |
| HomePage.InsertByWeightPermutes | frontend/src/pages/HomePage.jsx:35-39 | one insertion step adds exactly the inserted task |
| HomePage.InsertByWeightKeepsSorted | frontend/src/pages/HomePage.jsx:35-39 | one insertion step keeps the list sorted by weight |
| HomePage.PrioritySortedPermutes | frontend/src/pages/HomePage.jsx:35 | the re-sort is a permutation of the fetched list |
| HomePage.PrioritySortedIsSorted | frontend/src/pages/HomePage.jsx:35-39 | the re-sorted list is ordered by weight |
| HomePage.PrioritySortedRanks | frontend/src/pages/HomePage.jsx:33-39 | with order "asc" ranks are nondecreasing, with any other order nonincreasing, and the list is a permutation of the fetched one |
| HomePage.PrioritySortedOrdersPriorities | frontend/src/pages/HomePage.jsx:33-39 | "asc" never puts a high task before a medium or low one, nor a medium one before a low one; any other order is the reverse |
| HomePage.PrioritySortedIsStable | frontend/src/pages/HomePage.jsx:35-39 | tasks of equal rank keep their fetched order |
| HomePage.SortByPriority | frontend/src/pages/HomePage.jsx:35-39 | sorting the array in place leaves exactly the stable priority order of its old contents |
| HomePage.FetchTasks | frontend/src/pages/HomePage.jsx:20-40 | sends the query built from the filters; re-sorts the data by priority when, and only when, sortBy is "priority", and otherwise keeps the server's order |
| HomePage.FilterState.constructor | frontend/src/pages/HomePage.jsx:15-18 | the page starts with status "", priority "", sortBy "createdAt", order "desc" |
| HomePage.FilterState.ClearFilters | frontend/src/pages/HomePage.jsx:122-127 | Clear Filters restores exactly the initial filter state |

## Left out

- The user model (`models/User.js`) is not part of this model. That covers its pre-save hashing, `matchPassword`, its schema validation and the unique index on email. The model takes the index as given and answers 500 to a save that breaks it.
- getProfile and the `protect` middleware are not part of this model. The caller id is an input to updateProfile and to the task handlers.
- Tokens.TokenText: renders the claims as decimal text, not base64url, and leaves out the signature segment. Only the absence of '/' in a token is used.
- Auth.Hash: bcrypt's cost factor, its 72-byte truncation and the hash value are not modelled. A digest accepts exactly the password it was made from.
- Tokens.Verify: malformed tokens, `nbf` and algorithm checks are not modelled. A token is a decoded value whose key stands for its signature.
- Sending mail is left out. The model keeps the message's sender, recipient, subject and link; its text and HTML are the templates filled with the link. Whether delivery succeeded is an input.
- Database, network and cast errors other than those named above (malformed ObjectIds, a token `id` that is not an ObjectId, a dueDate that does not parse, a dropped connection) are left out. resetPassword's catch answers every such error 400 "Invalid or expired token"; the other handlers answer it 500 "Server error". Whether one occurs depends on nothing the model holds.
- Auth.ForgotPassword: an unset CLIENT_URL or EMAIL_USER is not modelled. JavaScript would write "undefined" into the link or the sender; the model takes both variables as set and keeps them as strings.
- Auth.IdText: an ObjectId is written as its hexadecimal numeral without leading zeros, not as the 24-digit zero-padded string. The link's round trip and its lack of '/' hold either way.
- TaskModel.NewTask: a body field sent as JSON `null` is not modelled. Each field is either sent with a value or not sent. The same holds for Tasks.UpdateTaskOutcome, where Mongoose would store the `null`.
- Tasks.BuildFilter: query values sent as arrays or objects are not modelled. Each parameter is one string, and "" stands for one that was not sent.
- `dueDate`, `createdAt` and `updatedAt` are integers on an abstract clock. Date parsing and time zones are left out.
- Tasks.UpdateTaskOutcome: follows Mongoose 7 and later, where a field sent as `undefined` is dropped from the update.
- HomePage.QueryParams: the percent-encoding that `URLSearchParams.toString()` applies is not modelled. The model keeps the ordered key/value pairs, and the server reads them back.
- HomePage.Rank: a priority naming a property of `Object.prototype` (such as "toString") is not modelled. Such a value makes the comparator return NaN.
- HomePage.SortByPriority: the engine's sorting algorithm is not specified. The model sorts by insertion. Its result is the stable order that ES2019 and later require of `Array.prototype.sort`.
- The select handlers that set single filters, toasts, rate-limit UI, routing and rendering are left out. They are UI.
- Rate limiting, CORS, the HTTP server, routes and the axios bearer-header interceptor are left out. They are configuration and plumbing.
- Concurrent requests are left out. Each handler runs as one sequential step on its store.
