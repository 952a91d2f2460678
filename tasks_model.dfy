/** The task operations: create a task in a project, list a project's tasks, change a task's
    status, patch a task, delete a task. Every operation first finds the row (404), then checks
    the caller's tenant (403, super admins pass), then its own rules, and only then writes. */
module TasksModel {
  import opened Types
  import opened Store
  import opened Listing
  import ErrorHandler

  const ProjectNotFound := NotFound("Project not found")
  const TaskNotFound := NotFound("Task not found")
  const ProjectElsewhere := Forbidden("Access denied. Project belongs to different tenant")
  const TaskElsewhere := Forbidden("Access denied. Task belongs to different tenant")
  const AssigneeElsewhere := BadRequest("assignedTo user must belong to the same tenant")
  const NothingToUpdate := BadRequest("No valid fields to update")
  const NotTaskDeleter := Forbidden("Access denied. Only tenant_admin or task creator can delete tasks")

  /** The tenant check of the task operations: a caller who is not a super admin and whose
      token names another tenant (or none). */
  predicate OutsideTenant(requester: Claims, tenantId: Id)
  {
    requester.role != SuperAdmin && requester.tenantId != Some(tenantId)
  }

  /** An assignment is acceptable when it is empty or names a user of the task's tenant. */
  predicate AssigneeFits(users: map<Id, User>, assignedTo: Option<Id>, tenantId: Id)
  {
    assignedTo.Some? ==> assignedTo.value in users && users[assignedTo.value].tenantId == Some(tenantId)
  }

  // ---------------------------------------------------------------- createTask

  /** What the controller passes to `createTask`. */
  datatype NewTask = NewTask(title: string, description: Option<string>, assignedTo: Option<Id>,
                             priority: Option<Priority>, dueDate: Option<int>)

  datatype TaskView = TaskView(id: Id, projectId: Id, tenantId: Id, title: string, description: Option<string>,
                               status: TaskStatus, priority: Priority, assignedTo: Option<Id>, dueDate: Option<int>)

  function ViewOf(id: Id, t: Task): (v: TaskView)
    ensures v.id == id && v.projectId == t.projectId && v.tenantId == t.tenantId && v.title == t.title
    ensures v.description == t.description && v.status == t.status && v.priority == t.priority
    ensures v.assignedTo == t.assignedTo && v.dueDate == t.dueDate
  {
    TaskView(id, t.projectId, t.tenantId, t.title, t.description, t.status, t.priority, t.assignedTo, t.dueDate)
  }

  /** The row `createTask` inserts into a project of tenant `tenantId`. */
  function NewRow(projectId: Id, tenantId: Id, data: NewTask): (t: Task)
    ensures t.projectId == projectId && t.tenantId == tenantId && t.title == data.title
    ensures t.status == Todo
    ensures t.priority == if data.priority.Some? then data.priority.value else Medium
    ensures t.description == OrNull(data.description)
    ensures t.assignedTo == data.assignedTo && t.dueDate == data.dueDate
  {
    Task(projectId, tenantId, data.title, OrNull(data.description), Todo,
         if data.priority.Some? then data.priority.value else Medium, data.assignedTo, data.dueDate)
  }

  /** `createTask(projectId, taskData, requestingUser)`; `id` is the identifier the database
      generates for the new row. */
  method CreateTask(db: Db, projectId: Id, data: NewTask, requester: Claims, id: Id) returns (r: Result<TaskView>)
    requires db.Valid() && id !in db.tasks
    modifies db
    ensures db.Valid()
    ensures db.tenants == old(db.tenants) && db.users == old(db.users) && db.projects == old(db.projects)
    ensures projectId !in db.projects ==> r == Err(ProjectNotFound)
    ensures projectId in db.projects && OutsideTenant(requester, db.projects[projectId].tenantId) ==>
      r == Err(ProjectElsewhere)
    ensures (projectId in db.projects && !OutsideTenant(requester, db.projects[projectId].tenantId)
             && !AssigneeFits(db.users, data.assignedTo, db.projects[projectId].tenantId)) ==>
      r == Err(AssigneeElsewhere)
    ensures r.Ok? <==> (projectId in db.projects && !OutsideTenant(requester, db.projects[projectId].tenantId)
                        && AssigneeFits(db.users, data.assignedTo, db.projects[projectId].tenantId))
    ensures r.Err? ==> db.tasks == old(db.tasks)
    ensures r.Ok? ==>
      var row := NewRow(projectId, db.projects[projectId].tenantId, data);
      db.tasks == old(db.tasks)[id := row] && r.value == ViewOf(id, row)
  {
    if projectId !in db.projects {
      return Err(ProjectNotFound);
    }
    var project := db.projects[projectId];
    if requester.role != SuperAdmin && requester.tenantId != Some(project.tenantId) {
      return Err(ProjectElsewhere);
    }
    var tenantId := project.tenantId;
    if data.assignedTo.Some? {
      var assignee := data.assignedTo.value;
      if assignee !in db.users || db.users[assignee].tenantId != Some(tenantId) {
        return Err(AssigneeElsewhere);
      }
    }
    var row := NewRow(projectId, tenantId, data);
    PutTaskConsistent(db.tenants, db.users, db.projects, db.tasks, id, row);
    db.tasks := db.tasks[id := row];
    return Ok(ViewOf(id, row));
  }

  // ---------------------------------------------------------------- listProjectTasks

  /** The list options after validation: filters that are absent are None. */
  datatype TaskQuery = TaskQuery(status: Option<TaskStatus>, assignedTo: Option<QueryValue>, priority: Option<Priority>,
                                 search: Option<QueryValue>, page: Option<Arg>, limit: Option<Arg>)

  datatype TaskItem = TaskItem(id: Id, title: string, description: Option<string>, status: TaskStatus,
                               priority: Priority, assignedTo: Option<Person>, dueDate: Option<int>)

  datatype TaskPage = TaskPage(tasks: seq<TaskItem>, total: nat, currentPage: int, totalPages: nat, limit: int)

  function ItemOf(users: map<Id, User>, id: Id, t: Task): TaskItem
  {
    TaskItem(id, t.title, t.description, t.status, t.priority, AssigneeOf(users, t.assignedTo), t.dueDate)
  }

  /** The `where` clause: the project, and each filter that is given (a search that is the empty
      string is no filter). `contains` is the database's case-insensitive substring test. A
      composite assignee or search never gets here: the client refuses it first. */
  predicate TaskMatches(t: Task, projectId: Id, q: TaskQuery, contains: (string, string) -> bool)
  {
    && t.projectId == projectId
    && (q.status.Some? ==> t.status == q.status.value)
    && (q.priority.Some? ==> t.priority == q.priority.value)
    && (FilterText(q.assignedTo).Some? ==> t.assignedTo.Some? && t.assignedTo.value == FilterText(q.assignedTo).value)
    && (FilterText(q.search).Some? ==> contains(t.title, FilterText(q.search).value))
  }

  function Items(users: map<Id, User>, tasks: map<Id, Task>, ids: seq<Id>): (r: seq<TaskItem>)
    requires forall k | k in ids :: k in tasks
    ensures |r| == |ids| && forall i | 0 <= i < |ids| :: r[i] == ItemOf(users, ids[i], tasks[ids[i]])
  {
    if |ids| == 0 then [] else [ItemOf(users, ids[0], tasks[ids[0]])] + Items(users, tasks, ids[1..])
  }

  /** `listProjectTasks(projectId, requestingUser, options)`. `order` is the table in the query's
      sort order (priority, then due date, then newest first); `refusal` is the database client's
      message when it refuses the query: a composite assignee or search in the `where` clause of
      `count`, or the computed `skip` of `findMany`. */
  function ListProjectTasks(db: Db, projectId: Id, requester: Claims, q: TaskQuery, order: seq<Id>,
                            contains: (string, string) -> bool, refusal: string): (r: Result<TaskPage>)
    reads db
    requires Enumerates(order, db.tasks.Keys) && PagingOk(q.page, q.limit)
    ensures projectId !in db.projects ==> r == Err(ProjectNotFound)
    ensures projectId in db.projects && OutsideTenant(requester, db.projects[projectId].tenantId) ==>
      r == Err(ProjectElsewhere)
    ensures (projectId in db.projects && !OutsideTenant(requester, db.projects[projectId].tenantId)
             && !(ClientTakes(q.assignedTo) && ClientTakes(q.search))) ==>
      r == Err(ErrorHandler.QueryRefused(refusal))
    ensures (projectId in db.projects && !OutsideTenant(requester, db.projects[projectId].tenantId)
             && SkipOf(q.page, q.limit, 50).None?) ==>
      r == Err(ErrorHandler.QueryRefused(refusal))
    ensures r.Ok? <==> (projectId in db.projects && !OutsideTenant(requester, db.projects[projectId].tenantId)
                        && ClientTakes(q.assignedTo) && ClientTakes(q.search) && SkipOf(q.page, q.limit, 50).Some?)
    ensures r.Ok? ==>
      forall item | item in r.value.tasks :: item.id in db.tasks && TaskMatches(db.tasks[item.id], projectId, q, contains)
    ensures r.Ok? ==>
      r.value.total == |MatchingIds(db.tasks, projectId, q, contains)|
    ensures r.Ok? ==> |r.value.tasks| <= r.value.limit == LimitOr(q.limit, 50)
    ensures r.Ok? ==>
      r.value.tasks == Items(db.users, db.tasks,
        Page(MatchingTasks(db.tasks, order, projectId, q, contains), SkipOf(q.page, q.limit, 50).value, LimitOr(q.limit, 50)))
    ensures r.Ok? ==>
      r.value.currentPage == PageOr(q.page) && r.value.totalPages == TotalPages(r.value.total, r.value.limit)
  {
    if projectId !in db.projects then Err(ProjectNotFound)
    else if OutsideTenant(requester, db.projects[projectId].tenantId) then Err(ProjectElsewhere)
    else if !ClientTakes(q.assignedTo) || !ClientTakes(q.search) || SkipOf(q.page, q.limit, 50).None? then
      Err(ErrorHandler.QueryRefused(refusal))
    else
      var page, limit := PageOr(q.page), LimitOr(q.limit, 50);
      var rows := MatchingTasks(db.tasks, order, projectId, q, contains);
      var shown := Page(rows, SkipOf(q.page, q.limit, 50).value, limit);
      var items := Items(db.users, db.tasks, shown);
      assert forall i | 0 <= i < |items| :: items[i].id == shown[i] && shown[i] in rows;
      Ok(TaskPage(items, |rows|, page, TotalPages(|rows|, limit), limit))
  }

  /** The ids of the tasks the `where` clause selects. */
  function MatchingIds(tasks: map<Id, Task>, projectId: Id, q: TaskQuery, contains: (string, string) -> bool): (ids: set<Id>)
    ensures forall k :: k in ids <==> k in tasks && TaskMatches(tasks[k], projectId, q, contains)
  {
    set k | k in tasks && TaskMatches(tasks[k], projectId, q, contains)
  }

  /** The ids the `where` clause selects, in the query's order; as many as `count` reports. */
  function MatchingTasks(tasks: map<Id, Task>, order: seq<Id>, projectId: Id, q: TaskQuery,
                         contains: (string, string) -> bool): (rows: seq<Id>)
    requires Enumerates(order, tasks.Keys)
    ensures forall k :: k in rows <==> k in MatchingIds(tasks, projectId, q, contains)
    ensures Distinct(rows) && |rows| == |MatchingIds(tasks, projectId, q, contains)|
  {
    var filters := q.(page := None, limit := None);
    var keep := k => k in tasks && TaskMatches(tasks[k], projectId, filters, contains);
    FilterCount(order, tasks.Keys, keep);
    assert Kept(tasks.Keys, keep) == MatchingIds(tasks, projectId, q, contains);
    Filter(order, keep)
  }

  /** Every task the filters select is listed: with a limit written as a plain integer, the row
      at `(page - 1) * limit + j`, in the query's order, is entry `j` of the listing of page
      `page`, and that listing counts at least `page` pages. */
  lemma TasksListed(db: Db, projectId: Id, requester: Claims, q: TaskQuery, order: seq<Id>,
                    contains: (string, string) -> bool, refusal: string, page: int, j: nat)
    requires Enumerates(order, db.tasks.Keys) && PagingOk(q.page, q.limit) && Plain(q.limit)
    requires projectId in db.projects && !OutsideTenant(requester, db.projects[projectId].tenantId)
    requires ClientTakes(q.assignedTo) && ClientTakes(q.search)
    requires page >= 1 && j < LimitOr(q.limit, 50)
    requires Skip(page, LimitOr(q.limit, 50)) + j < |MatchingIds(db.tasks, projectId, q, contains)|
    ensures var rows := MatchingTasks(db.tasks, order, projectId, q, contains);
      var r := ListProjectTasks(db, projectId, requester, q.(page := Some(Arg(page, Some(page as real)))), order, contains, refusal);
      && r.Ok? && page <= r.value.totalPages
      && j < |r.value.tasks| && r.value.tasks[j].id == rows[Skip(page, LimitOr(q.limit, 50)) + j]
  {
    var limit := LimitOr(q.limit, 50);
    var rows := MatchingTasks(db.tasks, order, projectId, q, contains);
    SlotOnPage(rows, limit, page, j);
    ListedOnPage(db, projectId, requester, q, order, contains, refusal, page, j);
  }

  /** Entry `j` of the listing of page `page` is entry `j` of that page of the matching rows. */
  lemma ListedOnPage(db: Db, projectId: Id, requester: Claims, q: TaskQuery, order: seq<Id>,
                     contains: (string, string) -> bool, refusal: string, page: int, j: nat)
    requires Enumerates(order, db.tasks.Keys) && PagingOk(q.page, q.limit) && Plain(q.limit)
    requires projectId in db.projects && !OutsideTenant(requester, db.projects[projectId].tenantId)
    requires ClientTakes(q.assignedTo) && ClientTakes(q.search)
    requires page >= 1
    requires j < |Page(MatchingTasks(db.tasks, order, projectId, q, contains),
                       Skip(page, LimitOr(q.limit, 50)), LimitOr(q.limit, 50))|
    ensures var limit := LimitOr(q.limit, 50);
      var rows := MatchingTasks(db.tasks, order, projectId, q, contains);
      var r := ListProjectTasks(db, projectId, requester, q.(page := Some(Arg(page, Some(page as real)))), order, contains, refusal);
      && r.Ok? && r.value.totalPages == TotalPages(|rows|, limit)
      && j < |r.value.tasks| && r.value.tasks[j].id == Page(rows, Skip(page, limit), limit)[j]
  {
    var q' := q.(page := Some(Arg(page, Some(page as real))));
    PlainSkip(q'.page, q'.limit, 50);
    assert q.(page := None, limit := None) == q'.(page := None, limit := None);
  }

  // ---------------------------------------------------------------- updateTaskStatus

  datatype StatusView = StatusView(id: Id, status: TaskStatus, tenantId: Id)

  /** `updateTaskStatus(taskId, status, requestingUser)`: any status may follow any other. */
  method UpdateTaskStatus(db: Db, taskId: Id, status: TaskStatus, requester: Claims) returns (r: Result<StatusView>)
    requires db.Valid()
    modifies db
    ensures db.Valid()
    ensures db.tenants == old(db.tenants) && db.users == old(db.users) && db.projects == old(db.projects)
    ensures taskId !in old(db.tasks) ==> r == Err(TaskNotFound)
    ensures taskId in old(db.tasks) && OutsideTenant(requester, old(db.tasks)[taskId].tenantId) ==> r == Err(TaskElsewhere)
    ensures r.Ok? <==> taskId in old(db.tasks) && !OutsideTenant(requester, old(db.tasks)[taskId].tenantId)
    ensures r.Err? ==> db.tasks == old(db.tasks)
    ensures r.Ok? ==>
      db.tasks == old(db.tasks)[taskId := old(db.tasks)[taskId].(status := status)]
      && r.value == StatusView(taskId, status, old(db.tasks)[taskId].tenantId)
  {
    if taskId !in db.tasks {
      return Err(TaskNotFound);
    }
    var task := db.tasks[taskId];
    if requester.role != SuperAdmin && requester.tenantId != Some(task.tenantId) {
      return Err(TaskElsewhere);
    }
    var updated := task.(status := status);
    PutTaskConsistent(db.tenants, db.users, db.projects, db.tasks, taskId, updated);
    db.tasks := db.tasks[taskId := updated];
    return Ok(StatusView(taskId, status, task.tenantId));
  }

  // ---------------------------------------------------------------- updateTask

  /** The fields of an update body the model reads: None is absent, `Some(None)` is an explicit
      null. The title, status and priority have been checked by the controller. */
  datatype TaskPatch = TaskPatch(title: Option<string>, description: Option<Option<string>>,
                                 status: Option<TaskStatus>, priority: Option<Priority>,
                                 dueDate: Option<Option<int>>, assignedTo: Option<Option<Id>>)

  /** `Object.keys(data).length === 0`: the body holds none of the fields the model writes. */
  predicate PatchEmpty(p: TaskPatch)
  {
    p.title.None? && p.description.None? && p.status.None? && p.priority.None? && p.dueDate.None? && p.assignedTo.None?
  }

  /** The task after `data` is written: each field given replaces the stored one, the others
      (and the project and tenant) stay. */
  function Patched(t: Task, p: TaskPatch): (u: Task)
    ensures u.projectId == t.projectId && u.tenantId == t.tenantId
    ensures u.title == (if p.title.Some? then p.title.value else t.title)
    ensures u.description == (if p.description.Some? then p.description.value else t.description)
    ensures u.status == (if p.status.Some? then p.status.value else t.status)
    ensures u.priority == (if p.priority.Some? then p.priority.value else t.priority)
    ensures u.dueDate == (if p.dueDate.Some? then p.dueDate.value else t.dueDate)
    ensures u.assignedTo == (if p.assignedTo.Some? then p.assignedTo.value else t.assignedTo)
  {
    t.(title := if p.title.Some? then p.title.value else t.title,
       description := if p.description.Some? then p.description.value else t.description,
       status := if p.status.Some? then p.status.value else t.status,
       priority := if p.priority.Some? then p.priority.value else t.priority,
       dueDate := if p.dueDate.Some? then p.dueDate.value else t.dueDate,
       assignedTo := if p.assignedTo.Some? then p.assignedTo.value else t.assignedTo)
  }

  /** Sending the same patch twice leaves the task as sending it once. */
  lemma PatchIdempotent(t: Task, p: TaskPatch)
    ensures Patched(Patched(t, p), p) == Patched(t, p)
  {
  }

  /** An empty patch is the identity. */
  lemma EmptyPatchChangesNothing(t: Task, p: TaskPatch)
    requires PatchEmpty(p)
    ensures Patched(t, p) == t
  {
  }

  datatype UpdatedTask = UpdatedTask(id: Id, tenantId: Id, title: string, description: Option<string>,
                                     status: TaskStatus, priority: Priority, assignedTo: Option<Person>,
                                     dueDate: Option<int>)

  function UpdatedView(users: map<Id, User>, id: Id, t: Task): UpdatedTask
  {
    UpdatedTask(id, t.tenantId, t.title, t.description, t.status, t.priority, AssigneeOf(users, t.assignedTo), t.dueDate)
  }

  /** The user a patch assigns the task to, if it names one (an explicit null names nobody). */
  function NewAssignee(p: TaskPatch): Option<Id>
  {
    if p.assignedTo.Some? then p.assignedTo.value else None
  }

  /** The five plain fields of `data`, copied from the patch where given; `written` tells
      whether any was. */
  method WriteFields(task: Task, updates: TaskPatch) returns (data: Task, written: bool)
    ensures data == Patched(task, updates.(assignedTo := None))
    ensures written <==> !PatchEmpty(updates.(assignedTo := None))
  {
    data := task;
    written := false;
    if updates.title.Some? { data := data.(title := updates.title.value); written := true; }
    if updates.description.Some? { data := data.(description := updates.description.value); written := true; }
    if updates.status.Some? { data := data.(status := updates.status.value); written := true; }
    if updates.priority.Some? { data := data.(priority := updates.priority.value); written := true; }
    if updates.dueDate.Some? { data := data.(dueDate := updates.dueDate.value); written := true; }
  }

  /** `updateTask(taskId, updates, requestingUser)`: builds `data` field by field, checks a new
      assignee, refuses an empty `data`, then writes. */
  method UpdateTask(db: Db, taskId: Id, updates: TaskPatch, requester: Claims) returns (r: Result<UpdatedTask>)
    requires db.Valid()
    modifies db
    ensures db.Valid()
    ensures db.tenants == old(db.tenants) && db.users == old(db.users) && db.projects == old(db.projects)
    ensures taskId !in old(db.tasks) ==> r == Err(TaskNotFound)
    ensures taskId in old(db.tasks) && OutsideTenant(requester, old(db.tasks)[taskId].tenantId) ==> r == Err(TaskElsewhere)
    ensures (taskId in old(db.tasks) && !OutsideTenant(requester, old(db.tasks)[taskId].tenantId)
             && !AssigneeFits(db.users, NewAssignee(updates), old(db.tasks)[taskId].tenantId)) ==>
      r == Err(AssigneeElsewhere)
    ensures (taskId in old(db.tasks) && !OutsideTenant(requester, old(db.tasks)[taskId].tenantId)
             && PatchEmpty(updates)) ==>
      r == Err(NothingToUpdate)
    ensures r.Ok? <==> (taskId in old(db.tasks) && !OutsideTenant(requester, old(db.tasks)[taskId].tenantId)
                        && AssigneeFits(db.users, NewAssignee(updates), old(db.tasks)[taskId].tenantId)
                        && !PatchEmpty(updates))
    ensures r.Err? ==> db.tasks == old(db.tasks)
    ensures r.Ok? ==>
      var t := Patched(old(db.tasks)[taskId], updates);
      db.tasks == old(db.tasks)[taskId := t] && r.value == UpdatedView(db.users, taskId, t)
  {
    if taskId !in db.tasks {
      return Err(TaskNotFound);
    }
    var task := db.tasks[taskId];
    if requester.role != SuperAdmin && requester.tenantId != Some(task.tenantId) {
      return Err(TaskElsewhere);
    }
    var data, written := WriteFields(task, updates);
    if updates.assignedTo.Some? {
      if updates.assignedTo.value.Some? {
        var assignee := updates.assignedTo.value.value;
        if assignee !in db.users || db.users[assignee].tenantId != Some(task.tenantId) {
          return Err(AssigneeElsewhere);
        }
      }
      data := data.(assignedTo := updates.assignedTo.value);
      written := true;
    }
    if !written {
      return Err(NothingToUpdate);
    }
    assert data == Patched(task, updates);
    PutTaskConsistent(db.tenants, db.users, db.projects, db.tasks, taskId, data);
    db.tasks := db.tasks[taskId := data];
    return Ok(UpdatedView(db.users, taskId, data));
  }

  // ---------------------------------------------------------------- deleteTask

  datatype DeletedTask = DeletedTask(id: Id, tenantId: Id)

  /** Who may delete a task once the tenant check passed: an admin, or the creator of the
      task's project. */
  predicate MayDeleteTask(projects: map<Id, Project>, requester: Claims, t: Task)
  {
    requester.role == SuperAdmin || requester.role == TenantAdmin
    || (t.projectId in projects && projects[t.projectId].createdBy == requester.userId)
  }

  /** `deleteTask(taskId, requestingUser)`: removes exactly that task. */
  method DeleteTask(db: Db, taskId: Id, requester: Claims) returns (r: Result<DeletedTask>)
    requires db.Valid()
    modifies db
    ensures db.Valid()
    ensures db.tenants == old(db.tenants) && db.users == old(db.users) && db.projects == old(db.projects)
    ensures taskId !in old(db.tasks) ==> r == Err(TaskNotFound)
    ensures taskId in old(db.tasks) && OutsideTenant(requester, old(db.tasks)[taskId].tenantId) ==> r == Err(TaskElsewhere)
    ensures (taskId in old(db.tasks) && !OutsideTenant(requester, old(db.tasks)[taskId].tenantId)
             && !MayDeleteTask(db.projects, requester, old(db.tasks)[taskId])) ==>
      r == Err(NotTaskDeleter)
    ensures r.Ok? <==> (taskId in old(db.tasks) && !OutsideTenant(requester, old(db.tasks)[taskId].tenantId)
                        && MayDeleteTask(db.projects, requester, old(db.tasks)[taskId]))
    ensures r.Err? ==> db.tasks == old(db.tasks)
    ensures r.Ok? ==>
      db.tasks == old(db.tasks) - {taskId} && r.value == DeletedTask(taskId, old(db.tasks)[taskId].tenantId)
  {
    if taskId !in db.tasks {
      return Err(TaskNotFound);
    }
    var task := db.tasks[taskId];
    if requester.role != SuperAdmin && requester.tenantId != Some(task.tenantId) {
      return Err(TaskElsewhere);
    }
    if requester.role != SuperAdmin && requester.role != TenantAdmin {
      var project := db.projects[task.projectId];
      if project.createdBy != requester.userId {
        return Err(NotTaskDeleter);
      }
    }
    DeleteTaskConsistent(db.tenants, db.users, db.projects, db.tasks, taskId);
    db.tasks := db.tasks - {taskId};
    return Ok(DeletedTask(taskId, task.tenantId));
  }
}
