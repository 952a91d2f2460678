# Multi-tenant project and task backend, modelled in Dafny

The backend serves many organisations ("tenants") from one database. Each tenant has users in
one of three roles: `super_admin` (belongs to no tenant), `tenant_admin` and `user`. It also
has projects, and each project has tasks. This model covers the following parts:

- the request checks each controller runs before calling its model;
- the five model files that read and write the database (`Store.Db`: four tables keyed by row id);
- the middleware that authenticates a bearer token, gates routes by role and turns thrown errors into responses;
- the JSON response envelopes;
- the CORS origin check.

The database is a class whose map fields the model methods update in place. The methods say how
each table changes and keep `Valid()`: every reference points at an existing row of the right
tenant, subdomains are unique, and e-mails are unique within a tenant. Reads (lists, lookups,
login) are functions over the same state. Each controller's checks form a function from the raw
request (a JSON body of `Types.Value`s, or query strings) to either the typed arguments its model
takes or the 400 it answers. The checks are listed in the order the controller runs them.
Round-trip lemmas show that any well-formed request a client can write reaches the model
unchanged. The role-gated routes are modelled as the gate, then the controller, then the model.

Modules follow the source files:

- `Types` and `Validation` hold the shared vocabulary and JavaScript's string checks;
- `Listing` holds filtering and paging;
- `Store` holds the tables and their consistency;
- `AuthModel`, `ProjectsModel`, `TasksModel`, `TenantsModel` and `UsersModel` hold the models;
- one `*Controller` module per controller;
- `Rbac`, `AuthMiddleware` and `ErrorHandler` hold the middleware;
- `Responses` holds the envelopes and `Cors` the origin check;
- `Routes` holds the gated routes.

## Model

| member | source | states |
|---|---|---|
| Types.ParseRole | backend/src/controllers/users.controller.js:142 | a role name parses back to the role it names, and nothing else parses |
| Types.ParseTenantStatus | backend/src/controllers/tenants.controller.js:61 | the tenant statuses `active`, `suspended`, `trial` are exactly the names that parse |
| Types.ParsePlan | backend/src/controllers/tenants.controller.js:68 | the plans `free`, `pro`, `enterprise` are exactly the names that parse |
| Types.ParseProjectStatus | backend/src/controllers/projects.controller.js:26 | the project statuses `active`, `archived`, `completed` are exactly the names that parse |
| Types.ParseTaskStatus | backend/src/controllers/tasks.controller.js:161 | the task statuses `todo`, `in_progress`, `completed` are exactly the names that parse |
| Types.ParsePriority | backend/src/controllers/tasks.controller.js:29 | the priorities `low`, `medium`, `high` are exactly the names that parse |
| Types.NamesRoundTrip | backend/src/controllers/tasks.controller.js:206-216 | every enumeration value survives being printed and parsed back |
| Types.Get | backend/src/controllers/projects.controller.js:109-127 | `body[key]` is the value stored under the key, or undefined when the key is absent |
| Types.Keys | backend/src/controllers/projects.controller.js:109 | `Object.keys(body)` lists the body's keys in order |
| Types.KeysOtherThan | backend/src/models/tenants.model.js:83-84 | `keys.filter(k => k !== kept)` holds exactly the keys other than `kept`; both self-update checks use it |
| Validation.TrimEmptyIffBlank | backend/src/controllers/projects.controller.js:20 | `s.trim().length === 0` holds exactly when `s` is made only of JavaScript whitespace |
| Validation.Utf16Length | backend/src/controllers/auth.controller.js:24 | `length` counts UTF-16 units: between one and two per character |
| Validation.UuidPatternIsShape | backend/src/controllers/projects.controller.js:103-104 | the UUID regular expression accepts exactly 36 hex digits and hyphens in the 8-4-4-4-12 layout |
| Validation.EmailPatternIsShape | backend/src/controllers/auth.controller.js:18-19 | the e-mail regular expression accepts exactly the strings with one `@`, no whitespace, a non-empty local part and a domain part with an inner dot |
| Validation.SubdomainPatternIsShape | backend/src/controllers/auth.controller.js:29-30 | the subdomain regular expression accepts exactly non-empty strings of `[a-z0-9-]` that neither start nor end with a hyphen |
| Validation.OneOf | backend/src/controllers/projects.controller.js:27-29 | an enumeration check's refusal is a 400 |
| Validation.NamedIsTruthy | backend/src/controllers/tasks.controller.js:162 | a value found among non-empty names is truthy, so the `!status` half of the check adds nothing |
| Validation.TextArg | backend/src/models/projects.model.js:41-49 | an optional text field is the body's string when it is one, and nothing otherwise |
| Validation.CheckPage | backend/src/controllers/projects.controller.js:57-62 | a page given is refused with 400 unless it parses to an integer of at least 1 |
| Validation.CheckLimit | backend/src/controllers/projects.controller.js:64-69 | a limit given is refused with 400 unless it parses to an integer from 1 to 100 |
| Validation.ParsedArg | backend/src/controllers/projects.controller.js:78-83 | a paging parameter that passed its check reaches the model as the raw string it was: both its `parseInt` integer and its `Number()` value, or absent |
| Validation.CheckedPagingOk | backend/src/controllers/tasks.controller.js:115-128 | paging that passed both checks gives a page from 1 and a limit from 1 to 100, what every list model needs |
| Listing.Filter | backend/src/models/projects.model.js:107-129 | the rows a `where` clause keeps, in query order, without repeats |
| Listing.First | backend/src/models/auth.model.js:93-107 | `findFirst` returns a kept row, and returns none only when no row is kept |
| Listing.FilterCount | backend/src/models/projects.model.js:104-107 | the `count` beside a list query equals the number of rows the filtered list holds |
| Listing.Page | backend/src/models/projects.model.js:100-110 | `skip`/`take` returns at most `take` rows, exactly those from position `skip` on, and none past the end |
| Listing.TotalPages | backend/src/models/projects.model.js:151 | `Math.ceil(total / take)` is the least number of pages of size `take` that hold `total` rows |
| Listing.PageLocates | backend/src/models/users.model.js:122-150 | row `i` is entry `i % limit` of page `i / limit + 1`, and that page is within `totalPages` |
| Listing.SkipOf | backend/src/models/projects.model.js:100 | `skip = (page - 1) * limit` is computed on the `Number()` values of the raw strings, with the defaults 1 and the endpoint's limit; the client takes it exactly when it is a whole number from 0 on, and otherwise refuses the query |
| Listing.PlainSkip | backend/src/models/projects.model.js:100-101 | when page and limit are written as plain integers, `skip` is `(parseInt(page) - 1) * parseInt(limit)` |
| Listing.SlotOnPage | backend/src/models/projects.model.js:100-110 | entry `j` of page `page` is row `(page - 1) * limit + j` whenever that row exists, and that page is within `totalPages` |
| Listing.PagePastEndEmpty | backend/src/models/tenants.model.js:162-205 | a page beyond `totalPages` is empty |
| Responses.Success | backend/src/utils/responses.js:1-6 | a success envelope carries the flag, a message only when one is truthy, data only when given, and status 200 by default |
| Responses.Error | backend/src/utils/responses.js:8-11 | an error envelope is exactly `{success: false, message}` under the status given, 400 by default |
| Responses.Failure | backend/src/middleware/error.js:29-31 | a domain error is sent as an error envelope with its own status and message |
| Responses.EnvelopeShapes | backend/src/utils/responses.js:1-11 | error envelopes have exactly the keys `success` and `message`, success envelopes always have `success`, and no envelope is both |
| Rbac.Spread | backend/src/middleware/rbac.js:3-7 | spreading an array of names gives one argument per name, in order |
| Rbac.SpreadHas | backend/src/middleware/rbac.js:5-7 | a name is among the spread arguments exactly when it is in the array |
| Rbac.RequireRole | backend/src/middleware/rbac.js:3-20 | no user gives 401; a user passes exactly when the gate lists their role, and is otherwise refused with 403 |
| Rbac.ArrayAndListAgree | backend/src/middleware/rbac.js:5-7 | `requireRole(['a','b'])` and `requireRole('a','b')` decide every request alike |
| Rbac.RequireSuperAdmin | backend/src/middleware/rbac.js:22 | only a super admin passes |
| Rbac.RequireTenantAdmin | backend/src/middleware/rbac.js:23 | exactly tenant admins and super admins pass |
| AuthMiddleware.Authenticate | backend/src/middleware/auth.js:4-23 | a missing or non-`Bearer ` header gives 401 `No token provided`; a verified token attaches its payload; an expired token gives `Token expired`, and any other failure `Invalid token` |
| AuthMiddleware.BearerRoundTrip | backend/src/middleware/auth.js:12-21 | the header `Bearer <token>` hands exactly `<token>` to verification, and the answer is whatever verification decides |
| ErrorHandler.Handle | backend/src/middleware/error.js:3-32 | the JWT and Zod errors map by name, the client library's codes P2002 and P2025 map to 409 and 404, and anything else keeps its status (500 by default) and message |
| ErrorHandler.DomainErrorsPassThrough | backend/src/middleware/error.js:29-31 | every error a model throws reaches the client with its own status and message |
| ErrorHandler.Precedence | backend/src/middleware/error.js:7-26 | a name match wins over a code, and a code wins over a status the error carries |
| ErrorHandler.QueryRefused | backend/src/middleware/error.js:19-32 | the client library's refusal of a query argument carries no code the handler names: it reaches the client as a 500 with the library's message |
| ErrorHandler.ReferenceRefused | backend/src/middleware/error.js:19-32 | a foreign-key refusal (code P2003) is not one the handler names: it reaches the client as a 500 with the client library's message |
| Cors.Normalize | backend/src/app.js:20 | normalising drops one trailing slash and nothing else, and keeps an absent origin absent |
| Cors.HttpsVariant | backend/src/app.js:23 | an `http://` URL is rewritten to `https://` with the same rest, and any other URL is kept |
| Cors.Decide | backend/src/app.js:19-38 | a refusal carries the message `Not allowed by CORS` |
| Cors.NormalizeAllHas | backend/src/app.js:21-29 | the normalised allow-list holds exactly the normalisations of the non-empty entries |
| Cors.AbsentOriginAllowed | backend/src/app.js:33 | a request without an Origin header is always allowed |
| Cors.AllowedIffListed | backend/src/app.js:21-37 | an origin is allowed exactly when it normalises to the empty string or, after normalisation, equals a normalised non-empty allow-list entry |
| Cors.DevelopmentOriginsAllowed | backend/src/app.js:24-26 | the three development origins are allowed, with or without a trailing slash |
| Cors.FrontendAllowed | backend/src/app.js:22-23 | the configured frontend URL is allowed, and so is its https form |
| Store.OrNull | backend/src/models/projects.model.js:41-49 | `x \|\| null` turns the empty string into null and keeps any other text |
| Store.AssigneeOf | backend/src/models/tasks.model.js:111-119 | the included assignee is the assigned user's id, name and e-mail, or null when there is none |
| Store.ProjectCountInsert | backend/src/models/projects.model.js:30-49 | inserting a project raises its tenant's project count by one and leaves other tenants' counts alone |
| Store.UserCountInsert | backend/src/models/users.model.js:36-64 | inserting a user raises its tenant's user count by one and leaves other tenants' counts alone |
| Store.InsertKeepsProjectCap | backend/src/models/projects.model.js:30-38 | the cap check before an insert keeps every tenant within `maxProjects` |
| Store.InsertKeepsUserCap | backend/src/models/users.model.js:36-44 | the cap check before an insert keeps every tenant within `maxUsers` |
| Store.PutTaskConsistent | backend/src/models/tasks.model.js:37-48 | writing a task that fits its project, tenant and assignee keeps the database consistent |
| Store.DeleteTaskConsistent | backend/src/models/tasks.model.js:288-290 | deleting a task keeps the database consistent |
| Store.PutProjectConsistent | backend/src/models/projects.model.js:41-49 | writing a project of an existing tenant and an existing creator, without moving an old one, keeps the database consistent |
| Store.TasksOutside | backend/src/models/projects.model.js:315-318 | the cascade keeps exactly the tasks of other projects, unchanged |
| Store.DeleteProjectConsistent | backend/src/models/projects.model.js:315-318 | deleting a project together with its tasks keeps the database consistent |
| Store.AddUserConsistent | backend/src/models/users.model.js:47-64 | adding a user of an existing tenant with an unused e-mail keeps the database consistent |
| Store.ChangeUserConsistent | backend/src/models/users.model.js:214-226 | rewriting a user without changing its tenant or e-mail keeps the database consistent |
| Store.Unassign | backend/src/models/users.model.js:269-272 | `updateMany` nulls exactly the assignments to the user and changes nothing else |
| Store.UnassignConsistent | backend/src/models/users.model.js:269-277 | nulling a user's assignments keeps the database consistent, and so does then deleting the user when no project names them as creator |
| Store.AddTenantConsistent | backend/src/models/auth.model.js:28-38 | adding a tenant whose subdomain is free keeps the database consistent |
| Store.ChangeTenantConsistent | backend/src/models/tenants.model.js:105-108 | rewriting a tenant without changing its subdomain keeps the database consistent |
| AuthModel.NewTenant | backend/src/models/auth.model.js:28-38 | a new tenant is active, on the free plan, with room for 5 users and 3 projects |
| AuthModel.NewAdmin | backend/src/models/auth.model.js:40-50 | the first user is an active tenant admin of the new tenant, and their stored hash accepts the password given |
| AuthModel.NewTenantHasNoUsers | backend/src/models/auth.model.js:26-50 | a tenant id not yet in use has no users |
| AuthModel.RegisterKeepsCaps | backend/src/models/auth.model.js:26-50 | registering a tenant with its admin keeps every tenant within its caps |
| AuthModel.RegisterTenant | backend/src/models/auth.model.js:8-64 | a taken subdomain gives 409 and changes nothing; otherwise the tenant and its admin are inserted together and described in the answer |
| AuthModel.TenantBySubdomain | backend/src/models/auth.model.js:75-77 | the lookup finds a tenant with that subdomain, and finds none only when none exists |
| AuthModel.Scope | backend/src/models/auth.model.js:74-90 | with a subdomain, the tenant must exist (404) and be active (403); without one, the scope is the users with no tenant |
| AuthModel.UserInScope | backend/src/models/auth.model.js:93-107 | the user found is in scope with that e-mail, and none is found only when no user is |
| AuthModel.UserInScopeUnique | backend/src/models/auth.model.js:93-107 | since e-mails are unique per tenant, the lookup finds the one user in scope whatever the row order |
| AuthModel.Login | backend/src/models/auth.model.js:69-149 | scope errors first; an unknown user or wrong password gives 401, an inactive account 403 before the password is compared; an active user in scope with the right password always succeeds, signing their own id, tenant and role, expiring in 86400 seconds |
| AuthModel.LoginWithoutSubdomainIsSuperAdmin | backend/src/models/auth.model.js:99-107 | a login without a subdomain only ever signs in a super admin without a tenant |
| AuthModel.MemberCanLogIn | backend/src/models/auth.model.js:69-149 | an active user of an active tenant logs in with its subdomain and the right password, as exactly themselves |
| AuthModel.SuperAdminCanLogIn | backend/src/models/auth.model.js:69-149 | an active super admin logs in without a subdomain and with the right password, as exactly themselves, with no tenant |
| AuthModel.GetCurrentUser | backend/src/models/auth.model.js:154-183 | an unknown user gives 404; otherwise the profile has the user's id, e-mail, name, role and activity, and their tenant's id, name, subdomain, plan and caps, or null for a user with no tenant |
| AuthModel.CurrentUserTenantIffMember | backend/src/models/auth.model.js:154-183 | in a consistent database the profile has a tenant exactly when the user belongs to one |
| AuthController.ValidateRegisterTenant | backend/src/controllers/auth.controller.js:8-46 | five truthy fields, then the e-mail pattern on the printed e-mail, the password length (a string's or an array's) and the subdomain pattern on the printed subdomain, with the 400 of the first that fails; a request that passes with five strings carries them as sent, and any other passing request is handed on unmodelled |
| AuthController.RegistrationFields | backend/src/controllers/auth.controller.js:10 | each field a client writes in a registration reads back as that string |
| AuthController.RegistrationAccepted | backend/src/controllers/auth.controller.js:8-46 | a body holding the strings of a valid registration is accepted as exactly that registration |
| AuthController.RegisterTenantRoundTrip | backend/src/controllers/auth.controller.js:8-46 | a valid registration survives being sent and checked unchanged |
| AuthController.ValidateLogin | backend/src/controllers/auth.controller.js:52-71 | a falsy e-mail or password gives 400; otherwise string credentials reach the model as sent, with the subdomain given exactly when it is truthy; other truthy values are handed on unmodelled |
| AuthController.Logout | backend/src/controllers/auth.controller.js:93-101 | logout changes nothing and answers 200 with a message and no data |
| ProjectsController.StatusArg | backend/src/controllers/projects.controller.js:25-30 | a status given reaches the model as the status it names |
| ProjectsController.ValidateCreateProject | backend/src/controllers/projects.controller.js:9-44 | a truthy name, then a non-blank string name, then a known status; success carries the name, the description and the status as sent, and a truthy non-string description is handed on unmodelled |
| ProjectsController.CreateProjectRoundTrip | backend/src/controllers/projects.controller.js:9-44 | project data with a non-blank name survives being sent and checked |
| ProjectsController.ValidateListProjects | backend/src/controllers/projects.controller.js:51-89 | page, then limit, then status filter, with the 400 of the first that fails; a status that is an array or object is not one of the names and gets that 400; success passes the parsed status, the unchecked search and the paging through |
| ProjectsController.PagingCheckedBeforeStatus | backend/src/controllers/projects.controller.js:56-77 | for every project id, search and limit, a bad page is reported before an unknown status filter by the project list, while the task list reports the status first |
| ProjectsController.ValidateUpdateProject | backend/src/controllers/projects.controller.js:96-133 | project id, a non-empty body, then name and status when present; the patch holds exactly the fields present, and a non-string description is handed on unmodelled |
| ProjectsController.UnknownKeysReachModel | backend/src/controllers/projects.controller.js:109-127 | a body of unknown keys passes the controller with an empty patch |
| ProjectsController.ValidateDeleteProject | backend/src/controllers/projects.controller.js:140-157 | only the id's UUID shape is checked |
| ProjectsModel.TasksOf | backend/src/models/projects.model.js:119-123 | the tasks counted for a project are exactly those hanging off it |
| ProjectsModel.CompletedTasks | backend/src/models/projects.model.js:124-127 | the completed tasks counted are exactly the project's tasks with status `completed` |
| ProjectsModel.NewRow | backend/src/models/projects.model.js:41-49 | a new project belongs to the caller's tenant and creator, with the empty description as null and status `active` by default |
| ProjectsModel.CreateProject | backend/src/models/projects.model.js:8-60 | no tenant gives 403, an unknown tenant 404, a full tenant 403, and a caller whose user row is gone the database's refusal (500); otherwise exactly that row is inserted and the project cap is kept |
| ProjectsModel.MatchingIds | backend/src/models/projects.model.js:84-97 | the ids selected are exactly the tenant's projects that pass every given filter |
| ProjectsModel.MatchingProjects | backend/src/models/projects.model.js:104-110 | the ordered rows are exactly the matching ids, each once, so there are as many as `count` reports |
| ProjectsModel.ListProjects | backend/src/models/projects.model.js:66-155 | a caller without a tenant gives 403; then an array or object search in the `where` clause, or a `skip` (`Listing.SkipOf`), that the client refuses (`Listing.SkipOf`) gives its 500; otherwise the page lists, in order, the items of the matching rows from `skip` on, at most `parseInt(limit)` of them, each of the caller's tenant with its true task counts; the total is the number matching, `currentPage` is `parseInt(page)`, and `totalPages` is consistent |
| ProjectsModel.ProjectsListed | backend/src/models/projects.model.js:100-151 | every matching project is listed: with a plain-integer limit, the row at `(page - 1) * limit + j` is entry `j` of the listing of page `page`, which reports at least `page` pages |
| ProjectsModel.ProjectTaskIds | backend/src/models/projects.model.js:159-174 | the included tasks are exactly the project's tasks, each once |
| ProjectsModel.Details | backend/src/models/projects.model.js:190-217 | the formatted task list has one entry per task, in order |
| ProjectsModel.CompletedAmong | backend/src/models/projects.model.js:188 | the completed tasks among a list are exactly those with status `completed` |
| ProjectsModel.CountCompletedAmong | backend/src/models/projects.model.js:188 | counting completed entries of the formatted list counts the completed tasks it shows |
| ProjectsModel.GetProjectById | backend/src/models/projects.model.js:158-218 | an unknown project gives 404, another tenant's 403; otherwise the detail has the stored row's name, description and status, its creator, its tasks formatted in the relation's order (each of the project's tasks exactly once) and the true counts |
| ProjectsModel.ProjectDetailOf | backend/src/models/projects.model.js:160-214 | the detail carries the project's name, description and status, names the creator with their name, lists the project's tasks formatted in the relation's order with each task exactly once and no other, and counts them and the completed ones |
| ProjectsModel.DetailsShowEach | backend/src/models/projects.model.js:164-214 | the formatted task list holds each listed id once and no other |
| ProjectsModel.Patched | backend/src/models/projects.model.js:254-257 | the fields given replace the stored ones; the tenant and the creator never change |
| ProjectsModel.UpdateProject | backend/src/models/projects.model.js:224-279 | 404, then 403 for another tenant, then 403 unless an admin or the creator, then 400 for an empty patch; otherwise exactly that project is patched |
| ProjectsModel.DeleteProject | backend/src/models/projects.model.js:286-321 | the same checks as updating; then the project and exactly its tasks are gone and every other task is unchanged |
| TasksController.DueOf | backend/src/controllers/tasks.controller.js:42-50 | a due date given reaches the model as the instant it parses to, and null as none |
| TasksController.AssigneeArg | backend/src/controllers/tasks.controller.js:35-40 | an assignee given reaches the model as that UUID, and null as none |
| TasksController.PriorityArg | backend/src/controllers/tasks.controller.js:28-33 | a priority given reaches the model as the priority it names |
| TasksController.StatusArg | backend/src/controllers/tasks.controller.js:212-217 | a status given reaches the model as the status it names |
| TasksController.ValidateCreateTask | backend/src/controllers/tasks.controller.js:10-75 | project id, title, priority, assignee, due date, with the 400 of the first that fails; success carries exactly the data sent, and a non-string description or assignee that passes is handed on unmodelled |
| TasksController.CreateTaskRoundTrip | backend/src/controllers/tasks.controller.js:10-75 | task data with a non-blank title and a UUID assignee survives being sent and checked |
| TasksController.ValidateListProjectTasks | backend/src/controllers/tasks.controller.js:82-142 | project id, status, priority, assignee, page, limit, with the 400 of the first that fails; an array or object status or priority gets its 400, while the assignee pattern is tested on the value's printed text; success passes the parsed filters, the assignee and search as given, and the paging through |
| TasksController.ArrayAssigneeRefused | backend/src/controllers/tasks.controller.js:109-113 | `?assignedTo[]=<uuid>` passes the pattern check, and the model then gives the client's refusal (a 500) for that query |
| TasksController.ListProjectTasksRoundTrip | backend/src/controllers/tasks.controller.js:82-142 | every query a client can mean passes the checks unchanged |
| TasksController.ValidateUpdateTaskStatus | backend/src/controllers/tasks.controller.js:149-181 | the task id, then a status that is one of the three names |
| TasksController.UpdateTaskStatusRoundTrip | backend/src/controllers/tasks.controller.js:149-181 | a status sent by name is the status the model is asked to set |
| TasksController.NullableArg | backend/src/models/tasks.model.js:204-218 | a field the model writes only when present: absent stays absent, null clears |
| TasksController.ValidateUpdateTask | backend/src/controllers/tasks.controller.js:188-248 | the task id, then each field that is present, in order; the patch holds exactly the fields present, and a non-string description or assignee that passes is handed on unmodelled |
| TasksController.ValidateDeleteTask | backend/src/controllers/tasks.controller.js:256-282 | only the id's UUID shape is checked |
| TasksModel.ViewOf | backend/src/models/tasks.model.js:50-61 | the answer describes the stored row field by field |
| TasksModel.NewRow | backend/src/models/tasks.model.js:37-48 | a new task is of the project's tenant, status `todo`, priority `medium` by default, with the empty description as null |
| TasksModel.CreateTask | backend/src/models/tasks.model.js:8-62 | 404 for an unknown project, 403 for another tenant, 400 for an assignee outside the tenant; otherwise exactly that row is inserted |
| TasksModel.ListProjectTasks | backend/src/models/tasks.model.js:68-146 | 404, then 403 for another tenant, then an array or object assignee or search in the `where` clause, or a `skip`, that the client refuses gives its 500; otherwise the page lists, in order, the items of the matching tasks from `skip` on, at most `parseInt(limit)` of them; the total is the number matching, `currentPage` is `parseInt(page)`, and `totalPages` is consistent |
| TasksModel.TasksListed | backend/src/models/tasks.model.js:97-142 | every matching task is listed: with a plain-integer limit, the row at `(page - 1) * limit + j` is entry `j` of the listing of page `page`, which reports at least `page` pages |
| TasksModel.MatchingIds | backend/src/models/tasks.model.js:91-95 | the ids selected are exactly the project's tasks that pass every given filter |
| TasksModel.MatchingTasks | backend/src/models/tasks.model.js:100-105 | the ordered rows are exactly the matching ids, each once, so there are as many as `count` reports |
| TasksModel.UpdateTaskStatus | backend/src/models/tasks.model.js:152-179 | 404, then 403 for another tenant; otherwise only that task's status changes, whatever the status was before |
| TasksModel.Patched | backend/src/models/tasks.model.js:199-218 | each field given replaces the stored one; the project and the tenant never change |
| TasksModel.PatchIdempotent | backend/src/models/tasks.model.js:199-228 | sending the same patch twice leaves the task as sending it once |
| TasksModel.EmptyPatchChangesNothing | backend/src/models/tasks.model.js:220-224 | an empty patch is the identity |
| TasksModel.UpdateTask | backend/src/models/tasks.model.js:185-251 | 404, 403, then 400 for an assignee outside the tenant and for an empty patch; otherwise exactly that task is patched |
| TasksModel.WriteFields | backend/src/models/tasks.model.js:199-204 | the five plain fields are copied exactly when given, and `written` says whether any was |
| TasksModel.DeleteTask | backend/src/models/tasks.model.js:259-296 | 404, 403, then 403 unless an admin or the project's creator; otherwise exactly that task is removed |
| TenantsController.PositiveIntArg | backend/src/controllers/tenants.controller.js:72-82 | a cap given reaches the model as the whole number sent, at least 1 |
| TenantsController.ValidateGetTenant | backend/src/controllers/tenants.controller.js:10-27 | only the id's UUID shape is checked |
| TenantsController.ValidateUpdateTenant | backend/src/controllers/tenants.controller.js:36-101 | tenant id, a non-empty body, then name, status, plan and caps when present; the updates hold the body's keys and the values sent |
| TenantsController.BodyUpdates | backend/src/controllers/tenants.controller.js:54-86 | the body that passed the checks is handed to the model as is: its keys in order, and each of the five fields with the value sent |
| TenantsController.UserCapAloneChecked | backend/src/controllers/tenants.controller.js:72-76 | a body holding only a user cap passes exactly when the cap is a whole number of at least 1 |
| TenantsController.AdminRenameAccepted | backend/src/controllers/tenants.controller.js:36-101 | a tenant admin's rename of their own tenant passes the controller and the model's permission check |
| TenantsController.AdminRenameWithMoreRefused | backend/src/models/tenants.model.js:82-89 | the same rename with any other accepted field beside it (a cap, a status, a plan or an unknown key) passes the controller and is refused by the model |
| TenantsController.ValidateListTenants | backend/src/controllers/tenants.controller.js:108-162 | page, limit, status, plan, with the 400 of the first that fails; an array or object status or plan gets its 400; success passes the parsed filters, the unchecked search and the paging through |
| TenantsModel.GetTenantById | backend/src/models/tenants.model.js:7-39 | an unknown tenant gives 404; a caller who is neither a super admin nor a member gives 403; otherwise the tenant is described |
| TenantsModel.Restricted | backend/src/models/tenants.model.js:83-84 | the restricted fields are exactly the keys other than `name` |
| TenantsModel.Change | backend/src/models/tenants.model.js:60-80 | a super admin's mask keeps all five fields; anyone else's keeps only the name |
| TenantsModel.Applied | backend/src/models/tenants.model.js:105-108 | the fields in the mask replace the stored ones; the subdomain never changes |
| TenantsModel.TenantAdminOnlyRenames | backend/src/models/tenants.model.js:69-80 | whatever a tenant admin sends, nothing but the name can change |
| TenantsModel.TenantAdminPermittedIffOnlyName | backend/src/models/tenants.model.js:69-89 | a tenant admin's update of their own tenant passes exactly when `name` is its only key |
| TenantsModel.UpdateTenant | backend/src/models/tenants.model.js:47-121 | 404, then 403 for another tenant's admin, for restricted fields and for plain users, then 400 for an empty mask; otherwise only that tenant changes, and never its subdomain |
| TenantsModel.CopyAll | backend/src/models/tenants.model.js:62-68 | a super admin's allowed updates are every field given, as the role mask says |
| TenantsModel.MatchingIds | backend/src/models/tenants.model.js:143-159 | the ids selected are exactly the tenants that pass every given filter |
| TenantsModel.MatchingTenants | backend/src/models/tenants.model.js:166-173 | the ordered rows are exactly the matching ids, each once, so there are as many as `count` reports |
| TenantsModel.ListAllTenants | backend/src/models/tenants.model.js:127-208 | anyone but a super admin gets 403, then an array or object search in the `where` clause, or a `skip`, that the client refuses gives its 500; otherwise the page lists, in order, the items of the matching tenants from `skip` on, at most `parseInt(limit)` of them, with their true user and project counts; `page` is `parseInt(page)` and the other paging fields are consistent |
| TenantsModel.TenantsListed | backend/src/models/tenants.model.js:162-205 | every matching tenant is listed: with a plain-integer limit, the row at `(page - 1) * limit + j` is entry `j` of the listing of page `page`, which reports at least `page` pages |
| TenantsModel.ListedWithinCaps | backend/src/models/tenants.model.js:174-194 | while every tenant is within its caps, every listed count is within the listed cap |
| UsersController.ValidateAddUser | backend/src/controllers/users.controller.js:9-58 | tenant id, three truthy fields, the e-mail pattern on the printed e-mail, the password length, then a role among `user` and `tenant_admin`, with the 400 of the first that fails; a request that passes with string fields carries the data as sent, and any other is handed on unmodelled |
| UsersController.AddedUser | backend/src/controllers/users.controller.js:45-52 | the user data holds the e-mail, password and name sent, and the role sent or `user`, never `super_admin` |
| UsersController.AddedUsersAreNeverSuperAdmins | backend/src/controllers/users.controller.js:37-42 | no request asks the model to add a super admin |
| UsersController.AddUserRoundTrip | backend/src/controllers/users.controller.js:9-58 | a valid new user survives being sent and checked |
| UsersController.ValidateListUsers | backend/src/controllers/users.controller.js:65-110 | tenant id, page, limit, role filter, with the 400 of the first that fails; an array or object role gets its 400; success passes the parsed role, the unchecked search and the paging through |
| UsersController.ValidateUpdateUser | backend/src/controllers/users.controller.js:117-160 | user id, a non-empty body, then name, role and activity when present; the updates hold the body's keys and the values sent |
| UsersController.BodyUpdates | backend/src/controllers/users.controller.js:135-154 | the body that passed the checks is handed to the model as is: its keys in order, and name, role and activity with the values sent |
| UsersController.SelfRenameAccepted | backend/src/models/users.model.js:181-194 | a user renaming themselves passes the controller and the model's permission check |
| UsersController.SelfRenameWithMoreRefused | backend/src/models/users.model.js:187-193 | the same rename with any other valid key beside it passes the controller and is refused by the model |
| UsersController.PromotionBodyAccepted | backend/src/controllers/users.controller.js:141-146 | a body asking only for the role `super_admin` passes the controller |
| UsersController.ValidateDeleteUser | backend/src/controllers/users.controller.js:167-184 | only the id's UUID shape is checked |
| UsersModel.NewRow | backend/src/models/users.model.js:60-73 | a new user is active, of the target tenant, role `user` by default, and their stored hash accepts the password given |
| UsersModel.AddUser | backend/src/models/users.model.js:9-84 | 403 unless a tenant admin of that tenant, 404, 403 at the cap, 409 for a taken e-mail; otherwise exactly that row is inserted and the user cap is kept |
| UsersModel.MatchingIds | backend/src/models/users.model.js:105-119 | the ids selected are exactly the tenant's users that pass every given filter |
| UsersModel.MatchingUsers | backend/src/models/users.model.js:126-133 | the ordered rows are exactly the matching ids, each once, so there are as many as `count` reports |
| UsersModel.ListUsers | backend/src/models/users.model.js:90-153 | 403 unless a super admin or a member, then an array or object search in the `where` clause, or a `skip`, that the client refuses gives its 500; otherwise the page lists, in order, the items of the matching users from `skip` on, at most `parseInt(limit)` of them; the total is the number matching, `currentPage` is `parseInt(page)`, and `totalPages` is consistent |
| UsersModel.UsersListed | backend/src/models/users.model.js:122-150 | every matching user is listed: with a plain-integer limit, the row at `(page - 1) * limit + j` is entry `j` of the listing of page `page`, which reports at least `page` pages |
| UsersModel.Restricted | backend/src/models/users.model.js:188-189 | the restricted fields are exactly the keys other than `fullName` |
| UsersModel.Change | backend/src/models/users.model.js:181-203 | the fields written are only the name for oneself, and name, role and activity for an admin |
| UsersModel.Applied | backend/src/models/users.model.js:214-217 | the fields written replace the stored ones; the tenant, e-mail and password never change |
| UsersModel.SelfUpdateOnlyRenames | backend/src/models/users.model.js:181-194 | a user updating themselves can change nothing but their name |
| UsersModel.SelfPermittedIffOnlyName | backend/src/models/users.model.js:181-194 | the self branch is permitted exactly when `fullName` is the only key |
| UsersModel.UpdateUser | backend/src/models/users.model.js:159-228 | 404, 403 for another tenant, 403 for restricted self-updates and for plain users, 400 for nothing to write; otherwise exactly that user is rewritten |
| UsersModel.AdminChange | backend/src/models/users.model.js:196-199 | an admin's allowed updates for another user are every field given, as the role mask says |
| UsersModel.PromotionUnscopes | backend/src/models/users.model.js:195-199 | an admin's update giving a tenant user the role `super_admin` is permitted, and leaves a super admin inside a tenant |
| UsersModel.UpdateUserScoped | backend/src/models/users.model.js:159-228 | as `UpdateUser`, but the promotion is refused with 403, so no super admin ever belongs to a tenant |
| UsersModel.DeleteUser | backend/src/models/users.model.js:235-280 | 403 unless a tenant admin, 403 for oneself, 404, 403 for another tenant; otherwise exactly the user's task assignments are nulled, and the user is removed unless a project names them as creator, which the database refuses (500) |
| UsersModel.UnassignAndRemove | backend/src/models/users.model.js:268-277 | the two writes: assignments nulled first, then the user row removed, or kept with the refusal when they created a project |
| Routes.GatesAdmit | backend/src/routes/users.routes.js:15 | each route's gate lets through exactly the roles it lists, and refuses the others with 403 |
| Routes.AddUserRoute | backend/src/routes/users.routes.js:12-17 | the gate refuses all but tenant admins before the body is read; the model's own refusal of other roles is never seen; a success adds exactly the checked user to the caller's tenant |
| Routes.DeleteUserRoute | backend/src/routes/users.routes.js:46-51 | a deletion succeeds exactly for a tenant admin naming a well-formed id of another user of their tenant who created no project, and removes only that user; a refused deletion keeps every user |
| Routes.UpdateTenantRoute | backend/src/routes/tenants.routes.js:19-24 | plain users are refused by the gate, so the model's refusal of them is never seen; a success writes the validated change to exactly that tenant, and a tenant admin's success sets only the name of their own tenant to the name sent |
| Routes.AdminUpdateRenames | backend/src/models/tenants.model.js:69-108 | an update a tenant admin gets through holds only a text `name`, for their own tenant, and changes the row's name and nothing else |
| Routes.ListAllTenantsRoute | backend/src/routes/tenants.routes.js:31-36 | the gate's 403, then the query checks' 400, then the client's refusal of an array or object search or of `skip`; a list exactly when all pass, and then it is the model's list for the checked query |
| Routes.ListerRefusalUnreachable | backend/src/routes/tenants.routes.js:34 | behind the gate, the model's own 403 is never seen: every refusal is the gate's 403, a 400 from the query checks, or the client's refusal of the search or of `skip` |

## Left out

- Row ids, timestamps (`createdAt`, `updatedAt`) and the sort keys are not modelled. The database generates ids, and each insert takes the new id as a parameter that is not yet in the table.
- List order is the parameter `order`: any enumeration of the table stands for the `orderBy`. The case-insensitive `contains` search is the parameter `contains`.
- Password hashing: `Store.HashPassword` is a digest that remembers the password, with no salt and no cost. Comparison accepts exactly the password the digest was made from.
- JWT signing and verification are parameters (`sign`, `verify`), and so is the token lifetime's clock.
- `new Date(v)` is the parameter `parseDate`; a date is a number of milliseconds.
- `parseInt` and `Number()` on query strings are modelled as their outcomes (`Validation.Parsed`, `Listing.Arg`): absent, not a number, or an integer together with the string's `Number()` value.
- Listing.SkipOf: computes `(page - 1) * limit` in exact arithmetic on the `Number()` values; the rounding of JavaScript's floating-point subtraction and multiplication, and any upper bound the client library puts on `skip`, are not modelled.
- ProjectsModel.ProjectsListed, TasksModel.TasksListed, TenantsModel.TenantsListed, UsersModel.UsersListed: stated for a limit written as a plain integer and for page strings written as plain integers; for other strings the list models state the page through `Listing.SkipOf`.
- Body fields that are not strings but pass a controller's checks (numbers, arrays, objects in a text field) go on to code outside this model. There the hashing library or the database would act on them. The validators report such a request as `Ok(None)`, and the routes pass `None` on. For these requests the model does not say whether a model's own 404 or 403 comes before what the database does with the value. Query-string values are modelled as they arrive (`Types.QueryValue`: one string, or an array or object known by its printed text), and the list models refuse an array or object filter as the client library does.
- ProjectsModel.ListProjects, TasksModel.ListProjectTasks, UsersModel.ListUsers, TenantsModel.ListAllTenants: the client's refusal of a filter in `count` and of `skip` in `findMany` carry different messages in practice; both are the one parameter `refusal` here.
- ProjectsModel.GetProjectById: no route calls it. backend/src/routes/projects.routes.js has only `POST /`, `GET /`, `PUT /:projectId` and `DELETE /:projectId`, so `GET /api/projects/:projectId` falls through to the 404 of backend/src/app.js:71-73. The model states what the function does when called.
- AuthController.ValidateRegisterTenant, UsersController.ValidateAddUser: a JSON object that carries its own `length` or `toString` key is treated like any other object (no length, printed as `[object Object]`).
- A JSON array's printed text is carried with the value (`Types.Value.Array`), not computed from its elements. A number's printed text is the parameter `numberText`.
- The controllers' success envelopes and messages are not modelled, except logout's. The models' answers are.
- The audit log (`utils/audit.js`) is not part of this model; writing to it changes no state this model reads.
- Transactions, concurrency and the database's own failures are not modelled. Two requests racing past the e-mail or subdomain check would reach the client library's unique-constraint error (mapped by `ErrorHandler.Handle`). Registration's two inserts are one atomic step.
- `server.js` and `config/env.js` are not part of this model; the frontend URL is a parameter of the CORS check.
- The database schema is not part of this model. Its foreign keys and unique constraints are stated as `Store.Consistent`, which every model method keeps. The project's `creator` relation is taken to be required with the client library's default delete rule, which refuses to delete a user some project names as creator. The message of that refusal is the parameter `refusal`.
- Store.Consistent: the schema's rule that a super admin has no tenant is not in it, because `UsersModel.UpdateUser` as written can break it (see Findings). `UsersModel.UpdateUserScoped` keeps it.
- Routes without a role gate go straight from authentication to a controller. Each half is modelled (`AuthMiddleware.Authenticate`, the validators, the models), but their composition is modelled only for the four gated routes.
- The frontend and the seed script are not part of this model.

## Findings

| source | as written | input that shows it | evidently intended | confidence | as-written member | corrected member |
|---|---|---|---|---|---|---|
| backend/src/controllers/users.controller.js:141-146 and backend/src/models/users.model.js:195-199 | `updateUser` accepts the role `super_admin`, and the model lets any tenant admin write it for another user of their tenant | a tenant admin sends `PUT /api/users/<id of a user in their tenant>` with body `{"role": "super_admin"}` | a tenant user is never made a super admin: `addUser` allows only `user` and `tenant_admin`, and a super admin belongs to no tenant | not executed | UsersModel.PromotionUnscopes | UsersModel.UpdateUserScoped |
