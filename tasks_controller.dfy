/** The request checks of the task endpoints. Each check turns the path parameter and the body
    (or query) into the typed arguments the task model is called with, or into the 400 the
    endpoint answers with; checks run in the order the controller makes them, and the first
    that fails decides the answer. */
module TasksController {
  import opened Types
  import opened Validation
  import opened Listing
  import opened TasksModel
  import Store
  import ErrorHandler

  const BadProjectId := BadRequest("Invalid project ID format")
  const BadTaskId := BadRequest("Invalid task ID format")
  const BadTitle := BadRequest("title is required and must be a non-empty string")
  const BadNewTitle := BadRequest("title must be a non-empty string")
  const BadPriority := OneOf("Invalid priority.", PriorityNames)
  const BadPriorityFilter := OneOf("Invalid priority filter.", PriorityNames)
  const BadStatus := OneOf("Invalid status.", TaskStatusNames)
  const BadStatusFilter := OneOf("Invalid status filter.", TaskStatusNames)
  const BadAssignee := BadRequest("Invalid assignedTo user ID format")
  const BadAssigneeFilter := BadRequest("Invalid assignedTo user ID filter format")
  const BadDueDate := BadRequest("Invalid dueDate")

  // ---------------------------------------------------------------- field readers

  /** `dueDate` when given: neither undefined nor null, and `new Date(v)` is a valid date.
      `parseDate` is that constructor, read as milliseconds since the epoch. */
  predicate DueOk(v: Option<Value>, parseDate: Value -> Option<int>)
  {
    v.None? || v.value.Null? || parseDate(v.value).Some?
  }

  /** The parsed due date, or null when none was given. */
  function DueOf(v: Option<Value>, parseDate: Value -> Option<int>): (r: Option<int>)
    requires DueOk(v, parseDate)
    ensures r.Some? <==> v.Some? && !v.value.Null?
    ensures r.Some? ==> parseDate(v.value) == r
  {
    if v.None? || v.value.Null? then None else parseDate(v.value)
  }

  /** `assignedTo || null` once the UUID check has passed: the user id, or none. */
  function AssigneeArg(v: Option<Value>): (r: Option<Id>)
    requires UuidOrNullOk(v) && TextOrAbsent(v)
    ensures r.Some? <==> v.Some? && v.value.Str?
    ensures r.Some? ==> r.value == v.value.s && IsUuid(r.value)
  {
    if v.None? || v.value.Null? then None
    else
      UuidIsId(v.value.s);
      Some(v.value.s)
  }

  function PriorityArg(v: Option<Value>): (r: Option<Priority>)
    requires EnumOk(v, PriorityNames)
    ensures r.Some? <==> v.Some?
    ensures r.Some? ==> PriorityName(r.value) == v.value.s
  {
    if v.None? then None else ParsePriority(v.value.s)
  }

  function StatusArg(v: Option<Value>): (r: Option<TaskStatus>)
    requires EnumOk(v, TaskStatusNames)
    ensures r.Some? <==> v.Some?
    ensures r.Some? ==> TaskStatusName(r.value) == v.value.s
  {
    if v.None? then None else ParseTaskStatus(v.value.s)
  }

  // ---------------------------------------------------------------- createTask

  datatype CreateTaskArgs = CreateTaskArgs(projectId: Id, data: NewTask)

  predicate CreateTaskOk(projectId: string, body: Body, parseDate: Value -> Option<int>)
  {
    && IsUuid(projectId)
    && IsNonBlankString(Get(body, "title"))
    && EnumOk(Get(body, "priority"), PriorityNames)
    && UuidOrNullOk(Get(body, "assignedTo"))
    && DueOk(Get(body, "dueDate"), parseDate)
  }

  /** `POST /api/projects/:projectId/tasks` before the model: the project id, a non-blank
      title, a known priority, a UUID assignee and a valid due date, in that order. The task
      data carries the body's title and description, the assignee or none, the priority (the
      model defaults it to medium) and the parsed due date. A truthy description that is not a
      string, or an array that prints as a UUID for the assignee, passes the controller and is
      refused by the database once the model uses it (`Ok(None)`). */
  function ValidateCreateTask(projectId: string, body: Body, parseDate: Value -> Option<int>)
    : (r: Result<Option<CreateTaskArgs>>)
    ensures r.Ok? <==> CreateTaskOk(projectId, body, parseDate)
    ensures !IsUuid(projectId) ==> r == Err(BadProjectId)
    ensures IsUuid(projectId) && !IsNonBlankString(Get(body, "title")) ==> r == Err(BadTitle)
    ensures (IsUuid(projectId) && IsNonBlankString(Get(body, "title")) &&
             !EnumOk(Get(body, "priority"), PriorityNames)) ==> r == Err(BadPriority)
    ensures (IsUuid(projectId) && IsNonBlankString(Get(body, "title")) &&
             EnumOk(Get(body, "priority"), PriorityNames) &&
             !UuidOrNullOk(Get(body, "assignedTo"))) ==> r == Err(BadAssignee)
    ensures (IsUuid(projectId) && IsNonBlankString(Get(body, "title")) &&
             EnumOk(Get(body, "priority"), PriorityNames) && UuidOrNullOk(Get(body, "assignedTo")) &&
             !DueOk(Get(body, "dueDate"), parseDate)) ==> r == Err(BadDueDate)
    ensures r.Ok? ==> (r.value.Some? <==> FalsyOrText(Get(body, "description")) && TextOrAbsent(Get(body, "assignedTo")))
    ensures r.Ok? && r.value.Some? ==>
              && r.value.value.projectId == projectId && Get(body, "title") == Some(Str(r.value.value.data.title))
              && |Trim(r.value.value.data.title)| != 0
              && r.value.value.data.assignedTo == AssigneeArg(Get(body, "assignedTo"))
              && r.value.value.data.priority == PriorityArg(Get(body, "priority"))
              && r.value.value.data.dueDate == DueOf(Get(body, "dueDate"), parseDate)
              && r.value.value.data.description == TextArg(Get(body, "description"))
  {
    var title := Get(body, "title");
    var description := Get(body, "description");
    var priority := Get(body, "priority");
    var assignedTo := Get(body, "assignedTo");
    var dueDate := Get(body, "dueDate");
    if !IsUuid(projectId) then Err(BadProjectId)
    else if !IsNonBlankString(title) then Err(BadTitle)
    else if !EnumOk(priority, PriorityNames) then Err(BadPriority)
    else if !UuidOrNullOk(assignedTo) then Err(BadAssignee)
    else if !DueOk(dueDate, parseDate) then Err(BadDueDate)
    else if !FalsyOrText(description) || !TextOrAbsent(assignedTo) then Ok(None)
    else
      UuidIsId(projectId);
      Ok(Some(CreateTaskArgs(projectId, NewTask(title.value.s, TextArg(description), AssigneeArg(assignedTo),
                                                PriorityArg(priority), DueOf(dueDate, parseDate)))))
  }

  /** The object literal a client writes for task data, the due date as milliseconds since
      the epoch. */
  function NewTaskEntries(data: NewTask): (entries: seq<(string, Option<Value>)>)
    ensures DistinctEntries(entries)
  {
    [("title", Some(Str(data.title))),
     ("description", if data.description.Some? then Some(Str(data.description.value)) else None),
     ("assignedTo", if data.assignedTo.Some? then Some(Str(data.assignedTo.value)) else None),
     ("priority", if data.priority.Some? then Some(Str(PriorityName(data.priority.value))) else None),
     ("dueDate", if data.dueDate.Some? then Some(Num(data.dueDate.value as real)) else None)]
  }

  /** The fields of a new task's object literal read back from the body sent. */
  lemma NewTaskFields(data: NewTask)
    ensures Get(Obj(NewTaskEntries(data)), "title") == Some(Str(data.title))
    ensures Get(Obj(NewTaskEntries(data)), "description") ==
              if data.description.Some? then Some(Str(data.description.value)) else None
    ensures Get(Obj(NewTaskEntries(data)), "assignedTo") ==
              if data.assignedTo.Some? then Some(Str(data.assignedTo.value)) else None
    ensures Get(Obj(NewTaskEntries(data)), "priority") ==
              if data.priority.Some? then Some(Str(PriorityName(data.priority.value))) else None
    ensures Get(Obj(NewTaskEntries(data)), "dueDate") ==
              if data.dueDate.Some? then Some(Num(data.dueDate.value as real)) else None
  {
    var entries := NewTaskEntries(data);
    ObjGetAt(entries, 0);
    ObjGetAt(entries, 1);
    ObjGetAt(entries, 2);
    ObjGetAt(entries, 3);
    ObjGetAt(entries, 4);
  }

  /** Task data with a non-blank title and a UUID assignee survives being sent as a body and
      checked: the controller hands the model exactly that data. */
  lemma CreateTaskRoundTrip(projectId: string, data: NewTask, parseDate: Value -> Option<int>)
    requires IsUuid(projectId) && |Trim(data.title)| != 0
    requires data.assignedTo.Some? ==> IsUuid(data.assignedTo.value)
    requires data.dueDate.Some? ==> parseDate(Num(data.dueDate.value as real)) == data.dueDate
    ensures ValidateCreateTask(projectId, Obj(NewTaskEntries(data)), parseDate) == Ok(Some(CreateTaskArgs(projectId, data)))
  {
    var body := Obj(NewTaskEntries(data));
    NewTaskFields(data);
    if data.priority.Some? {
      NamesRoundTrip(PlainUser, TenantActive, Free, ProjectActive, Todo, data.priority.value);
    }
    assert Get(body, "title") == Some(Str(data.title));
    assert TextArg(Get(body, "description")) == data.description;
    assert EnumOk(Get(body, "priority"), PriorityNames);
    assert PriorityArg(Get(body, "priority")) == data.priority;
    assert UuidOrNullOk(Get(body, "assignedTo"));
    assert AssigneeArg(Get(body, "assignedTo")) == data.assignedTo;
    assert DueOk(Get(body, "dueDate"), parseDate);
    assert DueOf(Get(body, "dueDate"), parseDate) == data.dueDate;
    assert CreateTaskOk(projectId, body, parseDate);
    assert FalsyOrText(Get(body, "description")) && TextOrAbsent(Get(body, "assignedTo"));
  }

  // ---------------------------------------------------------------- listProjectTasks

  datatype ListTasksArgs = ListTasksArgs(projectId: Id, query: TaskQuery)

  /** `GET /api/projects/:projectId/tasks` before the model: the project id, then the status,
      priority and assignee filters, then the page and the limit. The assignee pattern is tested
      on the value's text, so an array holding one UUID passes as that UUID does. On success the
      query carries the enum filters parsed, the assignee and the search as given, and paging
      options the model accepts (a limit of at most 100). */
  function ValidateListProjectTasks(projectId: string, status: Option<QueryValue>, assignedTo: Option<QueryValue>,
                                    priority: Option<QueryValue>, search: Option<QueryValue>, page: Parsed,
                                    limit: Parsed): (r: Result<ListTasksArgs>)
    ensures !IsUuid(projectId) ==> r == Err(BadProjectId)
    ensures (IsUuid(projectId) && !EnumParamOk(status, TaskStatusNames)) ==> r == Err(BadStatusFilter)
    ensures (IsUuid(projectId) && EnumParamOk(status, TaskStatusNames) &&
             !EnumParamOk(priority, PriorityNames)) ==> r == Err(BadPriorityFilter)
    ensures (IsUuid(projectId) && EnumParamOk(status, TaskStatusNames) && EnumParamOk(priority, PriorityNames) &&
             assignedTo.Some? && !IsUuid(QueryText(assignedTo.value))) ==> r == Err(BadAssigneeFilter)
    ensures (IsUuid(projectId) && EnumParamOk(status, TaskStatusNames) && EnumParamOk(priority, PriorityNames) &&
             (assignedTo.Some? ==> IsUuid(QueryText(assignedTo.value))) && CheckPage(page).Some?) ==> r == Err(CheckPage(page).value)
    ensures r.Ok? <==> (IsUuid(projectId) && EnumParamOk(status, TaskStatusNames) && EnumParamOk(priority, PriorityNames) &&
                        (assignedTo.Some? ==> IsUuid(QueryText(assignedTo.value))) && CheckPage(page).None? && CheckLimit(limit).None?)
    ensures r.Err? ==> r.error.status == 400
    ensures r.Ok? ==> r.value.projectId == projectId && PagingOk(r.value.query.page, r.value.query.limit)
    ensures r.Ok? ==> r.value.query.page == ParsedArg(page) && r.value.query.limit == ParsedArg(limit)
    ensures r.Ok? ==> (r.value.query.status.Some? <==> status.Some?) && (r.value.query.priority.Some? <==> priority.Some?)
    ensures r.Ok? && status.Some? ==> TaskStatusName(r.value.query.status.value) == status.value.s
    ensures r.Ok? && priority.Some? ==> PriorityName(r.value.query.priority.value) == priority.value.s
    ensures r.Ok? ==> r.value.query.assignedTo == assignedTo && r.value.query.search == search
  {
    if !IsUuid(projectId) then Err(BadProjectId)
    else if !EnumParamOk(status, TaskStatusNames) then Err(BadStatusFilter)
    else if !EnumParamOk(priority, PriorityNames) then Err(BadPriorityFilter)
    else if assignedTo.Some? && !IsUuid(QueryText(assignedTo.value)) then Err(BadAssigneeFilter)
    else if CheckPage(page).Some? then Err(CheckPage(page).value)
    else if CheckLimit(limit).Some? then Err(CheckLimit(limit).value)
    else
      UuidIsId(projectId);
      CheckedPagingOk(page, limit);
      var s := if status.Some? then ParseTaskStatus(status.value.s) else None;
      var p := if priority.Some? then ParsePriority(priority.value.s) else None;
      Ok(ListTasksArgs(projectId, TaskQuery(s, assignedTo, p, search, ParsedArg(page), ParsedArg(limit))))
  }

  /** Every query a client can mean (UUID assignee, page from 1, limit from 1 to 100) passes
      the checks when its filters are written by name, and reaches the model unchanged. */
  lemma ListProjectTasksRoundTrip(projectId: string, q: TaskQuery)
    requires IsUuid(projectId)
    requires q.assignedTo.Some? ==> IsUuid(QueryText(q.assignedTo.value))
    requires q.page.Some? ==> q.page.value.parsed >= 1
    requires q.limit.Some? ==> 1 <= q.limit.value.parsed <= 100
    ensures ValidateListProjectTasks(projectId,
              if q.status.Some? then Some(Single(TaskStatusName(q.status.value))) else None,
              q.assignedTo,
              if q.priority.Some? then Some(Single(PriorityName(q.priority.value))) else None,
              q.search,
              if q.page.Some? then Int(q.page.value.parsed, q.page.value.number) else Undefined,
              if q.limit.Some? then Int(q.limit.value.parsed, q.limit.value.number) else Undefined)
            == Ok(ListTasksArgs(projectId, q))
  {
    var st := if q.status.Some? then Some(Single(TaskStatusName(q.status.value))) else None;
    var pr := if q.priority.Some? then Some(Single(PriorityName(q.priority.value))) else None;
    var pg := if q.page.Some? then Int(q.page.value.parsed, q.page.value.number) else Undefined;
    var lm := if q.limit.Some? then Int(q.limit.value.parsed, q.limit.value.number) else Undefined;
    if q.status.Some? {
      NamesRoundTrip(PlainUser, TenantActive, Free, ProjectActive, q.status.value, Low);
    }
    if q.priority.Some? {
      NamesRoundTrip(PlainUser, TenantActive, Free, ProjectActive, Todo, q.priority.value);
    }
    assert ParsedArg(pg) == q.page && ParsedArg(lm) == q.limit;
    assert EnumParamOk(st, TaskStatusNames) && EnumParamOk(pr, PriorityNames);
    assert CheckPage(pg).None? && CheckLimit(lm).None?;
    var r := ValidateListProjectTasks(projectId, st, q.assignedTo, pr, q.search, pg, lm);
    assert r.Ok?;
    assert r.value.query.status == q.status by {
      if q.status.Some? {
        NamesRoundTrip(PlainUser, TenantActive, Free, ProjectActive, r.value.query.status.value, Low);
      }
    }
    assert r.value.query.priority == q.priority by {
      if q.priority.Some? {
        NamesRoundTrip(PlainUser, TenantActive, Free, ProjectActive, Todo, r.value.query.priority.value);
      }
    }
  }

  /** `?assignedTo[]=<uuid>`: the array's text is the UUID, so the pattern check lets it through,
      and the database client then refuses the array in the `where` clause (a 500). */
  lemma ArrayAssigneeRefused(db: Store.Db, projectId: string, requester: Claims, id: string, order: seq<Id>,
                             contains: (string, string) -> bool, refusal: string)
    requires IsUuid(projectId) && IsUuid(id) && Enumerates(order, db.tasks.Keys)
    requires projectId in db.projects && !OutsideTenant(requester, db.projects[projectId].tenantId)
    ensures var r := ValidateListProjectTasks(projectId, None, Some(Composite(id)), None, None, Undefined, Undefined);
      && r.Ok? && r.value.query.assignedTo == Some(Composite(id))
      && ListProjectTasks(db, r.value.projectId, requester, r.value.query, order, contains, refusal)
         == Err(ErrorHandler.QueryRefused(refusal))
  {
  }

  // ---------------------------------------------------------------- updateTaskStatus

  /** `PATCH /api/tasks/:taskId/status` before the model: the task id, then a status that is
      one of the three names (a missing or falsy status is refused with the same message). */
  function ValidateUpdateTaskStatus(taskId: string, body: Body): (r: Result<(Id, TaskStatus)>)
    ensures !IsUuid(taskId) ==> r == Err(BadTaskId)
    ensures r.Ok? <==> IsUuid(taskId) && Get(body, "status").Some? && EnumOk(Get(body, "status"), TaskStatusNames)
    ensures (IsUuid(taskId) && !r.Ok?) ==> r == Err(BadStatus)
    ensures r.Ok? ==> r.value.0 == taskId && Get(body, "status") == Some(Str(TaskStatusName(r.value.1)))
  {
    var status := Get(body, "status");
    if !IsUuid(taskId) then Err(BadTaskId)
    else if !Truthy(status) || !EnumOk(status, TaskStatusNames) then
      NamedIsTruthy(status, TaskStatusNames);
      Err(BadStatus)
    else
      UuidIsId(taskId);
      Ok((taskId, StatusArg(status).value))
  }

  /** A status sent by name is the status the model is asked to set. */
  lemma UpdateTaskStatusRoundTrip(taskId: string, status: TaskStatus)
    requires IsUuid(taskId)
    ensures ValidateUpdateTaskStatus(taskId, Obj([("status", Some(Str(TaskStatusName(status))))]))
            == Ok((taskId, status))
  {
    var entries := [("status", Some(Str(TaskStatusName(status))))];
    ObjGetAt(entries, 0);
    NamesRoundTrip(PlainUser, TenantActive, Free, ProjectActive, status, Low);
  }

  // ---------------------------------------------------------------- updateTask

  predicate UpdateTaskOk(taskId: string, body: Body, parseDate: Value -> Option<int>)
  {
    && IsUuid(taskId)
    && NonBlankOk(Get(body, "title"))
    && EnumOk(Get(body, "priority"), PriorityNames)
    && EnumOk(Get(body, "status"), TaskStatusNames)
    && UuidOrNullOk(Get(body, "assignedTo"))
    && DueOk(Get(body, "dueDate"), parseDate)
  }

  /** A field the model writes only when it is present: `Some(x)` for present, with x None
      for an explicit null. */
  function NullableArg<T>(v: Option<Value>, present: Option<T>): (r: Option<Option<T>>)
    ensures r.Some? <==> v.Some?
    ensures r.Some? && !v.value.Null? ==> r.value == present
    ensures r.Some? && v.value.Null? ==> r.value.None?
  {
    if v.None? then None else if v.value.Null? then Some(None) else Some(present)
  }

  /** `PUT /api/tasks/:taskId` before the model: the task id, then each field that is present —
      title, priority, status, assignee, due date, in that order. The patch holds exactly the
      fields present, parsed; an explicit null clears the description, assignee or due date.
      A description that is neither null nor a string, or an array that prints as a UUID for
      the assignee, passes the controller and is refused by the database once the model uses
      it (`Ok(None)`). */
  function ValidateUpdateTask(taskId: string, body: Body, parseDate: Value -> Option<int>)
    : (r: Result<Option<(Id, TaskPatch)>>)
    ensures r.Ok? <==> UpdateTaskOk(taskId, body, parseDate)
    ensures !IsUuid(taskId) ==> r == Err(BadTaskId)
    ensures (IsUuid(taskId) && !NonBlankOk(Get(body, "title"))) ==> r == Err(BadNewTitle)
    ensures (IsUuid(taskId) && NonBlankOk(Get(body, "title")) &&
             !EnumOk(Get(body, "priority"), PriorityNames)) ==> r == Err(BadPriority)
    ensures (IsUuid(taskId) && NonBlankOk(Get(body, "title")) && EnumOk(Get(body, "priority"), PriorityNames) &&
             !EnumOk(Get(body, "status"), TaskStatusNames)) ==> r == Err(BadStatus)
    ensures (IsUuid(taskId) && NonBlankOk(Get(body, "title")) && EnumOk(Get(body, "priority"), PriorityNames) &&
             EnumOk(Get(body, "status"), TaskStatusNames) &&
             !UuidOrNullOk(Get(body, "assignedTo"))) ==> r == Err(BadAssignee)
    ensures (IsUuid(taskId) && NonBlankOk(Get(body, "title")) && EnumOk(Get(body, "priority"), PriorityNames) &&
             EnumOk(Get(body, "status"), TaskStatusNames) && UuidOrNullOk(Get(body, "assignedTo")) &&
             !DueOk(Get(body, "dueDate"), parseDate)) ==> r == Err(BadDueDate)
    ensures r.Ok? ==> (r.value.Some? <==> TextOrAbsent(Get(body, "description")) && TextOrAbsent(Get(body, "assignedTo")))
    ensures r.Ok? && r.value.Some? ==> UpdatePatchOf(taskId, body, parseDate, r.value.value)
  {
    var title := Get(body, "title");
    var description := Get(body, "description");
    var status := Get(body, "status");
    var priority := Get(body, "priority");
    var assignedTo := Get(body, "assignedTo");
    var dueDate := Get(body, "dueDate");
    if !IsUuid(taskId) then Err(BadTaskId)
    else if !NonBlankOk(title) then Err(BadNewTitle)
    else if !EnumOk(priority, PriorityNames) then Err(BadPriority)
    else if !EnumOk(status, TaskStatusNames) then Err(BadStatus)
    else if !UuidOrNullOk(assignedTo) then Err(BadAssignee)
    else if !DueOk(dueDate, parseDate) then Err(BadDueDate)
    else if !TextOrAbsent(description) || !TextOrAbsent(assignedTo) then Ok(None)
    else
      UuidIsId(taskId);
      Ok(Some((taskId, TaskPatch(if title.Some? then Some(title.value.s) else None,
                                 NullableArg(description, TextArg(description)),
                                 StatusArg(status), PriorityArg(priority),
                                 NullableArg(dueDate, DueOf(dueDate, parseDate)),
                                 NullableArg(assignedTo, AssigneeArg(assignedTo))))))
  }

  /** What an accepted update hands the model: the task id, and a patch with exactly the fields
      the body holds, each as sent (a null clears). */
  predicate UpdatePatchOf(taskId: string, body: Body, parseDate: Value -> Option<int>, args: (Id, TaskPatch))
    requires UpdateTaskOk(taskId, body, parseDate) && TextOrAbsent(Get(body, "assignedTo"))
  {
    var p := args.1;
    && args.0 == taskId
    && (p.title.Some? <==> "title" in Keys(body))
    && (p.title.Some? ==> Get(body, "title") == Some(Str(p.title.value)) && |Trim(p.title.value)| != 0)
    && p.priority == PriorityArg(Get(body, "priority"))
    && p.status == StatusArg(Get(body, "status"))
    && (p.description.Some? <==> "description" in Keys(body))
    && (p.description.Some? ==> p.description.value == TextArg(Get(body, "description")))
    && (p.assignedTo.Some? <==> "assignedTo" in Keys(body))
    && (p.assignedTo.Some? ==> p.assignedTo.value == AssigneeArg(Get(body, "assignedTo")))
    && (p.dueDate.Some? <==> "dueDate" in Keys(body))
    && (p.dueDate.Some? ==> p.dueDate.value == DueOf(Get(body, "dueDate"), parseDate))
  }

  // ---------------------------------------------------------------- deleteTask

  /** `DELETE /api/tasks/:taskId` before the model: only the id's shape is checked. */
  function ValidateDeleteTask(taskId: string): (r: Result<Id>)
    ensures r.Ok? <==> IsUuid(taskId)
    ensures r.Ok? ==> r.value == taskId
    ensures r.Err? ==> r.error == BadTaskId
  {
    if !IsUuid(taskId) then Err(BadTaskId)
    else
      UuidIsId(taskId);
      Ok(taskId)
  }
}
