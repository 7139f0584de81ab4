# Role-based task tracker, modelled in Dafny

This project models the core of a role-based task tracker: a FastAPI service
over a MongoDB store in which admins and managers create projects and tasks
and assign them, developers move a task's development status, and testers
move its test status once the developer has completed it. Both sides append
author-tagged remarks.

The model follows the source file by file:

- `common.dfy`: `Option`, abstract ids and the caller.
- `task_schema.dfy`: the enums, the field bounds and what each request body carries.
- `task_workflow.dfy`: every task transition as a pure function over the
  stored record, with the failure it raises.
- `task_service.dfy`: the task collection as a class `TaskStore`. It holds a map from
  id to task, and each service operation is a method that reads the record,
  builds the `$set` document field by field and writes it back. Listing and
  its filters, the newest-first sort and the 500 cap are also here.
- `task_routes.dfy`: the per-endpoint role gates and the mapping of service
  failures to HTTP status codes.
- `auth_utils.dfy`: password strength, token and OTP expiry, `Bearer` header
  parsing, OTP generation and the cleanup of expired OTPs.
- `user_schema.dfy`, `user_service.dfy`: self-registration.
- `project_schema.dfy`, `project_service.dfy`, `project_routes.dfy`: the
  project store, with case-insensitive name uniqueness and a cascade over the
  tasks on delete.

Modelling conventions:

- Ids are natural numbers handed out by a per-store counter. A collection's
  natural order is ascending id. An id that does not parse behaves as an
  id that is not stored.
- Time is an integer number of seconds, passed in as `now`. `isoformat()` is an
  opaque string `iso`.
- The caller is an explicit `(userId, role, email)` value.
- Foreign code is a parameter: the password hash is `hash`, token verification
  is `verify`, and the random OTP draw is `draw`.
- `fault` stands for the document store raising before anything is written.

Two behaviours of the code worth stating:

- For a developer (tester), listing OVERWRITES the caller's own
  `assigned_to_dev` (`assigned_to_tester`) filter with the caller's email. It
  does not intersect the two (`app/services/task_service.py:272-275`).
  `TaskService.OwnSideFilterIsIgnored` states this.
- The password rules are checked length first. So `Weak1` is reported as too
  short, not as missing a special character (`AuthUtils.LengthIsReportedFirst`, `AuthUtils.SampleWeakPasswords`).

## Model

| member | source | states |
|---|---|---|
| TaskSchema.ParseRole | app/schemas/task_schema.py:6-10 | a role string is accepted iff it is one of admin, manager, developer, tester, and parsing inverts the role's name |
| TaskSchema.ParsePriority | app/schemas/task_schema.py:12-15 | priority is exactly one of low, medium, high |
| TaskSchema.ParseDevStatus | app/schemas/task_schema.py:17-20 | the development status is exactly one of pending, in_progress, completed |
| TaskSchema.ParseTesterStatus | app/schemas/task_schema.py:22-25 | the test status is exactly one of pending, tested, closed |
| TaskSchema.NamesRoundTrip | app/schemas/task_schema.py:6-25 | every enum value's wire name parses back to that value |
| TaskSchema.DecodeTaskCreate | app/schemas/task_schema.py:29-41 | a create body is accepted iff the title has 3 to 160 characters, the description at most 10000 and the priority is known; a missing priority becomes medium; the other fields are copied |
| TaskSchema.DecodeTaskUpdateAdmin | app/schemas/task_schema.py:44-50 | an admin update body obeys the same bounds on the fields present, defaults nothing, and has no status field |
| TaskSchema.DecodeTaskUpdateDeveloper | app/schemas/task_schema.py:53-54 | a developer body carries exactly one known development status |
| TaskSchema.DecodeTaskUpdateTester | app/schemas/task_schema.py:57-60 | a tester body needs a known test status; its remarks list is optional |
| TaskSchema.DecodeTaskAppendRemarks | app/schemas/task_schema.py:63-64 | an append body is accepted iff it holds at least one remark |
| TaskWorkflow.NewTask | app/services/task_service.py:41-59 | a side's status is pending iff that side's assignee is non-empty, and none otherwise; remarks start empty; both timestamps are now |
| TaskWorkflow.Assign | app/services/task_service.py:73-103 | not found fails with ValueError; with neither assignee given the task is returned unchanged; a given assignee is written and that side's status becomes pending only if it had none; nothing else changes |
| TaskWorkflow.AdminUpdate | app/services/task_service.py:107-140 | only title, description, priority, due date and the assignees change; absent fields are ignored; an empty update returns the task unchanged; the assignment rule is as in assign |
| TaskWorkflow.AdminUpdateOfAssigneesIsAssign | app/services/task_service.py:125-130 | an admin update carrying only assignees does exactly what assign does |
| TaskWorkflow.ReassignmentKeepsStatus | app/services/task_service.py:86-130 | on each side separately, a status already set survives assign and the admin update, whatever assignees are given |
| TaskWorkflow.SetDevStatus | app/services/task_service.py:144-163 | not found, then not the assigned developer, fail; on success only the development status and updated_at change |
| TaskWorkflow.AnyDevStatusReachable | app/services/task_service.py:157-159 | the assigned developer can move from any development status to any other |
| TaskWorkflow.Tagged | app/services/task_service.py:177-185 | tagging keeps the count and puts the tag in front of each remark, in order |
| TaskWorkflow.TaggedRecoversRemarks | app/services/task_service.py:177-185 | dropping the tag from each tagged entry gives the input remark back |
| TaskWorkflow.TagsNameTheirAuthor | app/services/task_service.py:231-236 | a developer-tagged entry never equals a tester-tagged one |
| TaskWorkflow.WithDevRemarks | app/services/task_service.py:166-186 | for the assigned developer, remarks become the old remarks followed by the tagged inputs; no other field but updated_at changes |
| TaskWorkflow.SetTesterStatus | app/services/task_service.py:190-217 | checks in order not found, not the assigned tester, developer not completed; on success sets the test status and replaces the remarks iff a list was given |
| TaskWorkflow.TesterWaitsForDeveloper | app/services/task_service.py:202-204 | a tester update before the developer completes fails with a PermissionError |
| TaskWorkflow.WithTesterRemarks | app/services/task_service.py:220-238 | for the assigned tester, remarks become the old remarks followed by the tester-tagged inputs |
| TaskWorkflow.RemarksKeepInsertionOrder | app/services/task_service.py:177-236 | a developer append then a tester append leaves old remarks, then the developer's, then the tester's |
| TaskWorkflow.Scenario | app/services/task_service.py:41-238 | create, assign both sides, tester refused, developer completes, tester accepted |
| TaskService.TaskStore.CreateTask | app/services/task_service.py:41-59 | inserts the NewTask record under a fresh id and returns it |
| TaskService.TaskStore.GetTaskById | app/services/task_service.py:63-68 | returns the stored task iff the id is stored |
| TaskService.TaskStore.AssignTask | app/services/task_service.py:73-103 | the result and the new store are those of Assign on the old record; a failure writes nothing |
| TaskService.TaskStore.UpdateTaskAdmin | app/services/task_service.py:107-140 | the result and the new store are those of AdminUpdate on the old record |
| TaskService.TaskStore.AdminSetDocument | app/services/task_service.py:117-130 | the `to_set` document carries exactly the payload's present fields, a pending status for a side that gets an assignee and has none, and no remarks |
| TaskService.AdminPatchAgrees | app/services/task_service.py:117-130 | the `$set` document built field by field is empty iff the payload is, and applying it gives AdminUpdate |
| TaskService.TaskStore.UpdateDevStatus | app/services/task_service.py:144-163 | result and new store follow SetDevStatus |
| TaskService.TaskStore.AppendDevRemarks | app/services/task_service.py:166-186 | result and new store follow WithDevRemarks |
| TaskService.TaskStore.UpdateTesterStatus | app/services/task_service.py:190-217 | result and new store follow SetTesterStatus; every failure leaves the store unchanged |
| TaskService.TaskStore.AppendTesterRemarks | app/services/task_service.py:220-238 | result and new store follow WithTesterRemarks |
| TaskService.BuildQueryFromFilters | app/services/task_service.py:242-259 | the query keeps exactly the non-empty filters, and a task matches it iff every non-empty filter agrees with the task |
| TaskService.OwnSideFilterIsIgnored | app/services/task_service.py:272-275 | for a developer (tester) the own-side filter makes no difference to what is listed |
| TaskService.TaskStore.FindNewestFirst | app/services/task_service.py:277-278 | returns stored matching tasks, each once, newest first, min(limit, matches) of them, and no match left out is newer than one returned |
| TaskService.TaskStore.FindInOrder | app/services/project_service.py:82 | returns the first min(limit, matches) matching tasks in ascending id order |
| TaskService.InsertKeepsNewestFirst | app/services/task_service.py:277 | inserting into a newest-first list keeps it newest first |
| TaskService.NewestCutIsTopK | app/services/task_service.py:278 | cutting a newest-first list keeps the newest entries |
| TaskService.TaskStore.GetAllTasks | app/services/task_service.py:262-279 | every result is stored and admitted by the filters and the role; a developer (tester) gets only tasks assigned to them; newest first; capped at 500 and otherwise complete |
| TaskService.TaskStore.GetMyTasks | app/services/task_service.py:281-292 | same listing as get_all_tasks with the caller's own side pinned |
| TaskService.TaskStore.DeleteTask | app/services/task_service.py:296-299 | true iff the id was stored, and exactly that record is removed |
| TaskService.TaskStore.DeleteProjectTasks | app/services/project_service.py:136 | removes exactly the tasks of the project and leaves the others as they were |
| TaskRoutes.FromService | app/routes/task_routes.py:110-115 | success is 200; ValueError is 404 "Task not found"; PermissionError is 403 with its message |
| TaskRoutes.FromAdminService | app/routes/task_routes.py:66-71 | ValueError is 404; a PermissionError is not caught and would be a 500 |
| TaskRoutes.AdminHandlersNeverFail500 | app/routes/task_routes.py:75-83 | full update and assign never raise PermissionError, so those handlers never answer 500 |
| TaskRoutes.TesterBeforeDeveloperIs403 | app/routes/task_routes.py:148-151 | the developer-must-complete precondition reaches the client as a 403 with its message |
| TaskRoutes.ViewRule | app/routes/task_routes.py:54-58 | admins and managers see any task; a developer or tester sees exactly their assigned tasks |
| TaskRoutes.CreateNewTask | app/routes/task_routes.py:15-20 | only admin or manager create (201); anyone else gets 403 and the store is untouched |
| TaskRoutes.ListAllTasks | app/routes/task_routes.py:23-45 | exactly the four roles may list; the filters pass through unchanged; the reply is the service's listing: stored, visible tasks with distinct ids, newest first, min(500, n) of them, and no visible task left out is newer than one listed |
| TaskRoutes.GetTask | app/routes/task_routes.py:48-60 | missing is 404; a developer or tester not assigned gets 403; otherwise the task |
| TaskRoutes.UpdateExistingTaskAdmin | app/routes/task_routes.py:63-72 | admin or manager only, checked before the service; not found is 404 |
| TaskRoutes.AssignTaskRoute | app/routes/task_routes.py:75-83 | admin or manager only; not found is 404 |
| TaskRoutes.DeleteExistingTask | app/routes/task_routes.py:86-93 | only the role admin deletes, so a manager gets 403; nothing removed is 404 |
| TaskRoutes.GetMyTasksRoute | app/routes/task_routes.py:98-103 | developers only; every task assigned to the developer, each once, newest first, cut to the newest 500 |
| TaskRoutes.UpdateDevStatusRoute | app/routes/task_routes.py:106-116 | developers only, checked before the service; failures mapped by FromService |
| TaskRoutes.AppendDevRemarksRoute | app/routes/task_routes.py:119-129 | developers only, checked before the service |
| TaskRoutes.GetMyTestingTasks | app/routes/task_routes.py:134-139 | testers only; every task assigned to the tester, each once, newest first, cut to the newest 500 |
| TaskRoutes.UpdateTestStatusRoute | app/routes/task_routes.py:142-152 | testers only, checked before the service |
| TaskRoutes.AppendTestRemarksRoute | app/routes/task_routes.py:155-165 | testers only, checked before the service |
| AuthUtils.ValidatePasswordStrength | app/utils/auth_utils.py:44-59 | (true, "") iff length is at least 8 and there is an upper, a lower, a digit and a special character; otherwise the message of the first failing rule in the order length, upper, lower, digit, special |
| AuthUtils.LengthIsReportedFirst | app/utils/auth_utils.py:47-50 | every password shorter than 8 characters gets the length message, whatever else it lacks; every longer one without an upper-case letter gets the upper-case message |
| AuthUtils.SampleWeakPasswords | app/utils/auth_utils.py:47-50 | `Weak1` gets the length message and `weakpass1!` the upper-case message |
| AuthUtils.StrongPasswordPasses | app/utils/auth_utils.py:47-59 | every password of at least 8 characters with an upper-case letter, a lower-case letter, a digit and a special character gives (true, "") |
| AuthUtils.SamplePasswordIsStrong | app/utils/auth_utils.py:47-59 | the sample password `Str0ng!pw` passes |
| AuthUtils.CreateJwtClaims | app/utils/auth_utils.py:68-74 | the token payload carries user id and role and expires 24 hours after issue |
| AuthUtils.OtpExpiryTime | app/utils/auth_utils.py:121-122 | an OTP expires 10 minutes after now |
| AuthUtils.DecodeJwtToken | app/utils/auth_utils.py:83-94 | a verified token gives its payload; expired is "Token expired", anything else invalid is "Invalid token" |
| AuthUtils.Split | app/utils/auth_utils.py:161 | `split(" ")` gives at least one piece, and no piece contains a space |
| AuthUtils.JoinSplit | app/utils/auth_utils.py:161 | splitting on single spaces loses nothing: joining the pieces restores the header |
| AuthUtils.BearerToken | app/utils/auth_utils.py:161 | the token is the text after "Bearer " up to the next space or the end |
| AuthUtils.GetCurrentUser | app/utils/auth_utils.py:153-167 | no "Bearer " prefix is 401 "Invalid Authorization header"; an expired and an invalid token alike are 401 "Invalid or expired token" (the decoder's own messages are not passed on); otherwise the payload itself, which has no email |
| AuthUtils.DecimalRoundTrip | app/utils/auth_utils.py:117 | the decimal text of a number reads back as that number |
| AuthUtils.GenerateOtp | app/utils/auth_utils.py:116-119 | a draw from [100000, 999999] gives a six-digit code that reads back as the draw |
| AuthUtils.OtpMail | app/utils/auth_utils.py:124-131 | the mail goes to the user, has the reset subject, and its body carries the code |
| AuthUtils.Unexpired | app/utils/auth_utils.py:146-149 | a record is kept iff it expires at or after now, and no more records are kept than were stored |
| AuthUtils.UnexpiredMultiplicity | app/utils/auth_utils.py:146-149 | each record with expires_at at or after now is kept as many times as it was stored; each earlier one is removed entirely |
| AuthUtils.UnexpiredAppend | app/utils/auth_utils.py:146-149 | cleanup keeps order: the survivors of a front part precede those of a back part |
| AuthUtils.CleanupCounts | app/utils/auth_utils.py:146-151 | kept plus deleted records account for every record |
| AuthUtils.CleanupIdempotent | app/utils/auth_utils.py:146-149 | a second cleanup at the same time removes nothing |
| AuthUtils.ResetStore.CleanupExpiredOtps | app/utils/auth_utils.py:146-151 | the collection becomes its unexpired records, and the count deleted is the number with expires_at before now |
| UserSchema.AsRole | app/schemas/user_schema.py:13 | a self-registered role is never admin; the stored role string parses to the workflow role it acts as (used by `NewUser`) |
| UserSchema.DecodeRegisterRole | app/schemas/user_schema.py:13 | the role defaults to developer and is otherwise one of manager, developer, tester |
| UserService.UserStore.GetUserByEmail | app/utils/auth_utils.py:100-112 | finds a user iff one is stored under the email |
| UserService.NewUser | app/services/user_service.py:22-29 | the stored user copies name, email, phone, address and role from the request, holds the hash and midnight of the given dates, and was created now; its stored role parses to the registered, non-admin workflow role |
| UserService.RegisterOutcomeAsWritten | app/services/user_service.py:8-40 | as written: a taken email is refused; otherwise success iff a joining date is given and the store does not fail |
| UserService.RegisterOutcome | app/services/user_service.py:8-40 | corrected: a taken email is refused with "User already exists with this email.", then a weak password with the strength message, then a store failure with "Internal Server Error"; otherwise success |
| UserService.UserStore.RegisterUserAsWritten | app/services/user_service.py:8-40 | the outcome of RegisterOutcomeAsWritten; exactly one user is appended on success; emails stay distinct |
| UserService.UserStore.RegisterUser | app/services/user_service.py:8-40 | the outcome of RegisterOutcome; exactly one user is appended on success; emails stay distinct |
| UserService.InsertFreshKeepsDistinct | app/services/user_service.py:11-33 | appending a user under an untaken email keeps emails distinct |
| UserService.WeakPasswordRegisteredAsWritten | app/services/user_service.py:17-19 | as written, the password "weak" is registered |
| UserService.MissingJoiningDateFailsAsWritten | app/services/user_service.py:29 | as written, leaving out the optional joining date ends in "Internal Server Error" |
| UserService.RegisteredPasswordsAreStrong | app/services/user_service.py:17-19 | corrected: every registered password satisfies all five strength rules |
| UserService.MissingJoiningDateRegisters | app/services/user_service.py:29 | corrected: a registration without a joining date succeeds and stores no date |
| ProjectSchema.ParseProjectStatus | app/schemas/project_schema.py:8 | the project status is exactly one of active, completed, on_hold |
| ProjectSchema.DecodeProjectCreate | app/schemas/project_schema.py:5-10 | a missing status becomes active; a present one must be known |
| ProjectService.NewProject | app/services/project_service.py:16-20 | the inserted document carries the given name, description and status, the caller as creator, and now as both timestamps |
| ProjectService.ApplyProjectUpdate | app/services/project_service.py:47-48 | each given field is overwritten, the others and the creator and creation time are kept, and updated_at becomes now |
| ProjectService.CaseIsTheOnlyDifferenceIgnored | app/services/project_service.py:10-12 | two names clash iff they have the same length and each pair of characters is equal or is the upper- and lower-case form of one ASCII letter |
| ProjectService.ProjectStore.FindByName | app/services/project_service.py:10-12 | true iff a stored name equals the given one ignoring case |
| ProjectService.ProjectStore.CreateProject | app/services/project_service.py:7-42 | a taken name is refused and nothing is inserted; otherwise stored with the caller as creator and returned with no tasks; names stay distinct up to case |
| ProjectService.NewNameKeepsNamesDistinct | app/services/project_service.py:10-21 | adding an untaken name keeps all names distinct up to case |
| ProjectService.ProjectStore.UpdateProject | app/services/project_service.py:45-72 | unknown id is "Project not found"; otherwise the given fields and updated_at are written, and the project returns with its first 100 tasks |
| ProjectService.RenameSkipsDuplicateCheck | app/services/project_service.py:45-50 | an update is not checked against other names and can make two names clash |
| ProjectService.ProjectStore.GetProject | app/services/project_service.py:75-99 | unknown id is "Project not found"; otherwise the project with its first 100 tasks |
| ProjectService.TaskPage | app/services/project_service.py:82 | the project's tasks, in id order, at most 100, and none left out precedes one listed |
| ProjectService.ProjectStore.FirstProjectsInOrder | app/services/project_service.py:104-105 | the first 100 projects in id order |
| ProjectService.ProjectStore.ListProjects | app/services/project_service.py:102-127 | min(100, count) projects in id order, each stored and carrying its first 100 tasks; none left out precedes one listed |
| ProjectService.ProjectStore.DeleteProject | app/services/project_service.py:130-140 | unknown id is "Project not found" with tasks untouched; otherwise the project and exactly its tasks are removed |
| ProjectRoutes.CheckRole | app/routes/project_routes.py:9-10 | true iff the role is admin or manager |
| ProjectRoutes.ManagerMayDeleteProjects | app/routes/project_routes.py:38-42 | a manager passes the project gate, unlike task deletion; developers and testers do not |
| ProjectRoutes.CreatesProject | app/routes/project_routes.py:13-18 | other roles get "Not authorized" with no service call; for admin and manager: success iff no fault and the name is not taken up to case, else "Internal server error" or the duplicate message with no change; on success the project is stored under a fresh id with the token's user id as creator and no tasks; names stay distinct |
| ProjectRoutes.UpdatesProject | app/routes/project_routes.py:21-25 | other roles get "Not authorized" with no change; for admin and manager: success iff no fault and the project exists, else the fault or not-found message with no change; on success the fields are applied and the project returns with its task page |
| ProjectRoutes.GetsProject | app/routes/project_routes.py:28-30 | no role check; success iff no fault and the project exists; the stored project with its task page, or "Internal server error" or "Project not found" |
| ProjectRoutes.ListsProjects | app/routes/project_routes.py:33-35 | no role check; on a fault "Internal server error"; otherwise the min(100, n) projects with the lowest ids, ascending, each its own stored project with its task page |
| ProjectRoutes.DeletesProject | app/routes/project_routes.py:38-42 | other roles get "Not authorized" and nothing is removed; for admin and manager: success iff no fault and the project exists, else the fault or not-found message with nothing removed; on success the project and exactly its tasks are removed |

## Findings

| source | as written | input that shows it | evidently intended | confidence | as-written member | corrected member |
|---|---|---|---|---|---|---|
| app/services/user_service.py:17-19 | `not validate_password_strength(...)` tests a two-element tuple, which is always truthy, so the check never refuses | a new email with password `weak` and a joining date is registered | refuse with "Password does not meet the required strength." when the verdict is false | high (not executed) | UserService.WeakPasswordRegisteredAsWritten | UserService.RegisteredPasswordsAreStrong |
| app/services/user_service.py:29 | `datetime.combine(user.date_of_joining, ...)` runs even when the optional joining date is absent, which raises | a registration without `date_of_joining` ends as "Internal Server Error" | store the user with no joining date | high (not executed) | UserService.MissingJoiningDateFailsAsWritten | UserService.MissingJoiningDateRegisters |

## Left out

- Password hashing and verification (bcrypt), token signing and verification (PyJWT), `EmailStr` syntax and SMTP delivery are foreign code. They appear only as parameters (`hash`, `verify`) or as the message built (`OtpMail`).
- `get_user_by_email` returning `None` when the store raises is not modelled. `GetUserByEmail` always answers from the stored users.
- `hash_password` returning `None` on failure is not modelled. The hash is a total function.
- Login, lockout, logout, OTP validation and password change are not part of this model; their code is not among the files modelled.
- MongoDB, `ObjectId` parsing and `async` are replaced by maps and sequences keyed by natural-number ids. A malformed id behaves as an unknown one. So `ObjectId(project_id)` raising in the project service is modelled as "Project not found", not "Internal server error".
- Concurrency and the non-atomic check-then-write races (duplicate email or duplicate project name under parallel requests) are left out.
- `fault` models one failure point per operation: the store raising before any write. A failure between a write and the re-read (for example in `update_project`) is not modelled.
- The tie order of tasks with equal `created_at` in a newest-first listing is left open, as the store leaves it.
- The `project_id` filter is an id or absent. An empty-string `project_id`, which the code ignores as falsy, cannot be expressed.
- AuthUtils.ValidatePasswordStrength: `\d` is modelled as the ASCII digits 0-9, and `[A-Z]`/`[a-z]` as ASCII letters. Python's `\d` also matches other Unicode decimal digits. The exception branch ("Internal error during password validation.") is unreachable for string input and not modelled.
- ProjectService.SameNameIgnoringCase: case-insensitive equality of plain names with ASCII case folding. The regular-expression reading of an unescaped name, and Unicode case folding, are not modelled.
- `ProjectUpdate` fields are modelled as "given or not given". The typing makes them required but nullable, and a null would be written as null. That is not modelled.
- `_serialize_task` only renames `_id` and fills in defaults that every stored record already has. `TaskView` stands for its result.
- Route ordering in the web framework (for example `/my` after `/{task_id}`) is not modelled. Each handler is a method of its own.
- Request validation errors (422) come from the framework before a handler runs. The decode functions say which bodies pass, and the handlers take validated bodies.
- Logging is left out.
- Several source defects are resolved to the intended behaviour:
  - The token payload carries no `email` (`app/utils/auth_utils.py:74`). As written, the developer and tester routes read `current_user["email"]` (`app/routes/task_routes.py:111`, and likewise at 124, 147 and 160), which would fail with a 500 on every such update.
  - `current_user.get("email")` (`app/routes/task_routes.py:55-57`, `app/services/task_service.py:271`) would be `None`. So as written a developer or tester would list and view exactly the tasks with nobody assigned on their side.
  - The model passes the caller's email explicitly in `Caller`.
  - `app/services/project_service.py:1` imports `tasks_collection`, a name the database module does not define (it defines `task_collection`).
  - `app/services/task_service.py:7-16` imports modules that are not present.
  - The model treats both stores as present.
