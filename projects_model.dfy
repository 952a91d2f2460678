/** The project operations: create a project under the caller's tenant (bounded by the plan's
    `maxProjects`), list the caller's projects, read one project with its tasks, patch it, and
    delete it together with its tasks. Unlike the task operations, none of these lets a super
    admin through the tenant check: a super admin's token names no tenant. */
module ProjectsModel {
  import opened Types
  import opened Store
  import opened Listing
  import ErrorHandler

  const NoTenantToCreate := Forbidden("Access denied. Super admin cannot create projects without a tenant")
  const NoTenantToList := Forbidden("Access denied. Super admin must specify a tenant")
  const TenantNotFound := NotFound("Tenant not found")
  const ProjectLimit := Forbidden("Project limit reached. Cannot create more projects")
  const ProjectNotFound := NotFound("Project not found")
  const ProjectElsewhere := Forbidden("Access denied. Project belongs to different tenant")
  const NotUpdater := Forbidden("Access denied. Only tenant admin or project creator can update")
  const NotDeleter := Forbidden("Access denied. Only tenant admin or project creator can delete")
  const NothingToUpdate := BadRequest("No valid fields to update")
  const ProjectDeleted := "Project deleted successfully"

  /** The tenant check of the project operations: the caller's token names exactly this tenant. */
  predicate InTenant(requester: Claims, tenantId: Id)
  {
    requester.tenantId == Some(tenantId)
  }

  /** Who may change or delete a project: a tenant admin, or the project's creator. */
  predicate MayChange(requester: Claims, p: Project)
  {
    requester.role == TenantAdmin || requester.userId == p.createdBy
  }

  // ---------------------------------------------------------------- tasks of a project

  /** The tasks hanging off project `projectId`. */
  function TasksOf(tasks: map<Id, Task>, projectId: Id): (r: set<Id>)
    ensures forall k :: k in r <==> k in tasks && tasks[k].projectId == projectId
  {
    set k | k in tasks && tasks[k].projectId == projectId
  }

  /** The completed tasks of project `projectId`. */
  function CompletedTasks(tasks: map<Id, Task>, projectId: Id): (r: set<Id>)
    ensures forall k :: k in r <==> k in tasks && tasks[k].projectId == projectId && tasks[k].status == TaskCompleted
  {
    set k | k in tasks && tasks[k].projectId == projectId && tasks[k].status == TaskCompleted
  }

  // ---------------------------------------------------------------- createProject

  /** What the controller passes to `createProject`. */
  datatype NewProject = NewProject(name: string, description: Option<string>, status: Option<ProjectStatus>)

  datatype ProjectView = ProjectView(id: Id, tenantId: Id, name: string, description: Option<string>,
                                     status: ProjectStatus, createdBy: Id)

  /** The row `createProject` inserts for a caller of tenant `tenantId`. */
  function NewRow(tenantId: Id, data: NewProject, creator: Id): (p: Project)
    ensures p.tenantId == tenantId && p.createdBy == creator && p.name == data.name
    ensures p.description == OrNull(data.description)
    ensures p.status == if data.status.Some? then data.status.value else ProjectActive
  {
    Project(tenantId, data.name, OrNull(data.description),
            if data.status.Some? then data.status.value else ProjectActive, creator)
  }

  function ViewOf(id: Id, p: Project): ProjectView
  {
    ProjectView(id, p.tenantId, p.name, p.description, p.status, p.createdBy)
  }

  /** `createProject(projectData, requestingUser)`; `id` is the identifier the database generates
      for the new row. The project goes to the caller's own tenant. A token may outlive its user:
      the database then refuses the row for its `createdBy`, and `refusal` is the client library's
      message for that refusal. */
  method CreateProject(db: Db, data: NewProject, requester: Claims, id: Id, refusal: string) returns (r: Result<ProjectView>)
    requires db.Valid() && id !in db.projects
    modifies db
    ensures db.Valid()
    ensures db.tenants == old(db.tenants) && db.users == old(db.users) && db.tasks == old(db.tasks)
    ensures requester.tenantId.None? ==> r == Err(NoTenantToCreate)
    ensures requester.tenantId.Some? && requester.tenantId.value !in db.tenants ==> r == Err(TenantNotFound)
    ensures (requester.tenantId.Some? && requester.tenantId.value in db.tenants
             && ProjectCount(old(db.projects), requester.tenantId.value)
                >= db.tenants[requester.tenantId.value].maxProjects) ==>
      r == Err(ProjectLimit)
    ensures (requester.tenantId.Some? && requester.tenantId.value in db.tenants
             && ProjectCount(old(db.projects), requester.tenantId.value)
                < db.tenants[requester.tenantId.value].maxProjects
             && requester.userId !in db.users) ==>
      r == Err(ErrorHandler.ReferenceRefused(refusal))
    ensures r.Ok? <==> (requester.tenantId.Some? && requester.tenantId.value in db.tenants
                        && ProjectCount(old(db.projects), requester.tenantId.value)
                           < db.tenants[requester.tenantId.value].maxProjects
                        && requester.userId in db.users)
    ensures r.Err? ==> db.projects == old(db.projects)
    ensures r.Ok? ==>
      var row := NewRow(requester.tenantId.value, data, requester.userId);
      db.projects == old(db.projects)[id := row] && r.value == ViewOf(id, row)
    ensures WithinProjectCap(db.tenants, old(db.projects)) ==> WithinProjectCap(db.tenants, db.projects)
  {
    if requester.tenantId.None? {
      return Err(NoTenantToCreate);
    }
    var tenantId := requester.tenantId.value;
    if tenantId !in db.tenants {
      return Err(TenantNotFound);
    }
    var tenant := db.tenants[tenantId];
    var current := ProjectCount(db.projects, tenantId);
    if current >= tenant.maxProjects {
      return Err(ProjectLimit);
    }
    if requester.userId !in db.users {
      return Err(ErrorHandler.ReferenceRefused(refusal));
    }
    var row := NewRow(tenantId, data, requester.userId);
    PutProjectConsistent(db.tenants, db.users, db.projects, db.tasks, id, row);
    if WithinProjectCap(db.tenants, db.projects) {
      InsertKeepsProjectCap(db.tenants, db.projects, id, row);
    }
    db.projects := db.projects[id := row];
    return Ok(ViewOf(id, row));
  }

  // ---------------------------------------------------------------- listProjects

  /** The list options after validation: filters that are absent are None. */
  datatype ProjectQuery = ProjectQuery(status: Option<ProjectStatus>, search: Option<QueryValue>,
                                       page: Option<Arg>, limit: Option<Arg>)

  /** The `creator` relation: the creating user's id and name. The relation is required, so every
      project has one. */
  datatype Creator = Creator(id: Id, fullName: string)

  datatype ProjectItem = ProjectItem(id: Id, name: string, description: Option<string>, status: ProjectStatus,
                                     createdBy: Creator, taskCount: nat, completedTaskCount: nat)

  datatype ProjectPage = ProjectPage(projects: seq<ProjectItem>, total: nat, currentPage: int,
                                     totalPages: nat, limit: int)

  /** The `where` clause: the tenant, and each filter that is given (an empty search is none).
      A composite search never gets here: the client refuses it first. */
  predicate ProjectMatches(p: Project, tenantId: Id, q: ProjectQuery, contains: (string, string) -> bool)
  {
    && p.tenantId == tenantId
    && (q.status.Some? ==> p.status == q.status.value)
    && (FilterText(q.search).Some? ==> contains(p.name, FilterText(q.search).value))
  }

  /** The ids of the projects the `where` clause selects. */
  function MatchingIds(projects: map<Id, Project>, tenantId: Id, q: ProjectQuery,
                       contains: (string, string) -> bool): (ids: set<Id>)
    ensures forall k :: k in ids <==> k in projects && ProjectMatches(projects[k], tenantId, q, contains)
  {
    set k | k in projects && ProjectMatches(projects[k], tenantId, q, contains)
  }

  /** Those ids in the query's order (newest first); as many as `count` reports. */
  function MatchingProjects(projects: map<Id, Project>, order: seq<Id>, tenantId: Id, q: ProjectQuery,
                            contains: (string, string) -> bool): (rows: seq<Id>)
    requires Enumerates(order, projects.Keys)
    ensures forall k :: k in rows <==> k in MatchingIds(projects, tenantId, q, contains)
    ensures Distinct(rows) && |rows| == |MatchingIds(projects, tenantId, q, contains)|
  {
    var filters := q.(page := None, limit := None);
    var keep := k => k in projects && ProjectMatches(projects[k], tenantId, filters, contains);
    FilterCount(order, projects.Keys, keep);
    assert Kept(projects.Keys, keep) == MatchingIds(projects, tenantId, q, contains);
    Filter(order, keep)
  }

  /** A listed project with its creator and the database's two task counts. */
  function ItemOf(users: map<Id, User>, tasks: map<Id, Task>, id: Id, p: Project): ProjectItem
    requires p.createdBy in users
  {
    ProjectItem(id, p.name, p.description, p.status, Creator(p.createdBy, users[p.createdBy].fullName),
                |TasksOf(tasks, id)|, |CompletedTasks(tasks, id)|)
  }

  function Items(users: map<Id, User>, projects: map<Id, Project>, tasks: map<Id, Task>, ids: seq<Id>): (r: seq<ProjectItem>)
    requires CreatorsExist(users, projects) && forall k | k in ids :: k in projects
    ensures |r| == |ids| && forall i | 0 <= i < |ids| :: r[i] == ItemOf(users, tasks, ids[i], projects[ids[i]])
  {
    if |ids| == 0 then [] else [ItemOf(users, tasks, ids[0], projects[ids[0]])] + Items(users, projects, tasks, ids[1..])
  }

  /** `listProjects(requestingUser, options)`. `order` is the project table newest first;
      `refusal` is the database client's message when it refuses the query: a composite search
      in the `where` clause of `count`, or the computed `skip` of `findMany`. */
  function ListProjects(db: Db, requester: Claims, q: ProjectQuery, order: seq<Id>,
                        contains: (string, string) -> bool, refusal: string): (r: Result<ProjectPage>)
    reads db
    requires Enumerates(order, db.projects.Keys) && PagingOk(q.page, q.limit) && CreatorsExist(db.users, db.projects)
    ensures requester.tenantId.None? ==> r == Err(NoTenantToList)
    ensures requester.tenantId.Some? && !ClientTakes(q.search) ==> r == Err(ErrorHandler.QueryRefused(refusal))
    ensures requester.tenantId.Some? && SkipOf(q.page, q.limit, 20).None? ==>
      r == Err(ErrorHandler.QueryRefused(refusal))
    ensures r.Ok? <==> requester.tenantId.Some? && ClientTakes(q.search) && SkipOf(q.page, q.limit, 20).Some?
    ensures r.Ok? ==>
      forall item | item in r.value.projects ::
        && item.id in db.projects
        && db.projects[item.id].tenantId == requester.tenantId.value
        && ProjectMatches(db.projects[item.id], requester.tenantId.value, q, contains)
        && item.taskCount == |TasksOf(db.tasks, item.id)|
        && item.completedTaskCount == |CompletedTasks(db.tasks, item.id)|
    ensures r.Ok? ==> r.value.total == |MatchingIds(db.projects, requester.tenantId.value, q, contains)|
    ensures r.Ok? ==> |r.value.projects| <= r.value.limit == LimitOr(q.limit, 20)
    ensures r.Ok? ==>
      r.value.projects == Items(db.users, db.projects, db.tasks,
        Page(MatchingProjects(db.projects, order, requester.tenantId.value, q, contains),
             SkipOf(q.page, q.limit, 20).value, LimitOr(q.limit, 20)))
    ensures r.Ok? ==>
      r.value.currentPage == PageOr(q.page) && r.value.totalPages == TotalPages(r.value.total, r.value.limit)
  {
    if requester.tenantId.None? then Err(NoTenantToList)
    else if !ClientTakes(q.search) || SkipOf(q.page, q.limit, 20).None? then Err(ErrorHandler.QueryRefused(refusal))
    else
      var tenantId := requester.tenantId.value;
      var page, limit := PageOr(q.page), LimitOr(q.limit, 20);
      var rows := MatchingProjects(db.projects, order, tenantId, q, contains);
      var shown := Page(rows, SkipOf(q.page, q.limit, 20).value, limit);
      var items := Items(db.users, db.projects, db.tasks, shown);
      assert forall i | 0 <= i < |items| :: items[i].id == shown[i] && shown[i] in rows;
      Ok(ProjectPage(items, |rows|, page, TotalPages(|rows|, limit), limit))
  }

  /** Every project the filters select is listed: with a limit written as a plain integer, the
      row at `(page - 1) * limit + j`, newest first, is entry `j` of the listing of page `page`,
      and that listing counts at least `page` pages. */
  lemma ProjectsListed(db: Db, requester: Claims, q: ProjectQuery, order: seq<Id>,
                       contains: (string, string) -> bool, refusal: string, page: int, j: nat)
    requires Enumerates(order, db.projects.Keys) && PagingOk(q.page, q.limit) && Plain(q.limit)
    requires CreatorsExist(db.users, db.projects) && requester.tenantId.Some? && ClientTakes(q.search)
    requires page >= 1 && j < LimitOr(q.limit, 20)
    requires Skip(page, LimitOr(q.limit, 20)) + j < |MatchingIds(db.projects, requester.tenantId.value, q, contains)|
    ensures var rows := MatchingProjects(db.projects, order, requester.tenantId.value, q, contains);
      var r := ListProjects(db, requester, q.(page := Some(Arg(page, Some(page as real)))), order, contains, refusal);
      && r.Ok? && page <= r.value.totalPages
      && j < |r.value.projects| && r.value.projects[j].id == rows[Skip(page, LimitOr(q.limit, 20)) + j]
  {
    var limit := LimitOr(q.limit, 20);
    var rows := MatchingProjects(db.projects, order, requester.tenantId.value, q, contains);
    SlotOnPage(rows, limit, page, j);
    ListedOnPage(db, requester, q, order, contains, refusal, page, j);
  }

  /** Entry `j` of the listing of page `page` is entry `j` of that page of the matching rows. */
  lemma ListedOnPage(db: Db, requester: Claims, q: ProjectQuery, order: seq<Id>,
                     contains: (string, string) -> bool, refusal: string, page: int, j: nat)
    requires Enumerates(order, db.projects.Keys) && PagingOk(q.page, q.limit) && Plain(q.limit)
    requires CreatorsExist(db.users, db.projects) && requester.tenantId.Some? && ClientTakes(q.search)
    requires page >= 1
    requires j < |Page(MatchingProjects(db.projects, order, requester.tenantId.value, q, contains),
                       Skip(page, LimitOr(q.limit, 20)), LimitOr(q.limit, 20))|
    ensures var limit := LimitOr(q.limit, 20);
      var rows := MatchingProjects(db.projects, order, requester.tenantId.value, q, contains);
      var r := ListProjects(db, requester, q.(page := Some(Arg(page, Some(page as real)))), order, contains, refusal);
      && r.Ok? && r.value.totalPages == TotalPages(|rows|, limit)
      && j < |r.value.projects| && r.value.projects[j].id == Page(rows, Skip(page, limit), limit)[j]
  {
    var q' := q.(page := Some(Arg(page, Some(page as real))));
    PlainSkip(q'.page, q'.limit, 20);
    assert q.(page := None, limit := None) == q'.(page := None, limit := None);
  }

  // ---------------------------------------------------------------- getProjectById

  datatype DetailTask = DetailTask(id: Id, title: string, description: Option<string>, status: TaskStatus,
                                   priority: Priority, dueDate: Option<int>, assignedTo: Option<Person>)

  datatype ProjectDetail = ProjectDetail(id: Id, tenantId: Id, name: string, description: Option<string>,
                                         status: ProjectStatus, createdBy: Creator, taskCount: nat,
                                         completedTaskCount: nat, tasks: seq<DetailTask>)

  /** The ids of the project's tasks, in the relation's order (newest first). */
  function ProjectTaskIds(tasks: map<Id, Task>, order: seq<Id>, projectId: Id): (ids: seq<Id>)
    requires Enumerates(order, tasks.Keys)
    ensures Distinct(ids)
    ensures forall k :: k in ids <==> k in TasksOf(tasks, projectId)
    ensures |ids| == |TasksOf(tasks, projectId)|
  {
    var keep := k => k in tasks && tasks[k].projectId == projectId;
    FilterCount(order, tasks.Keys, keep);
    assert Kept(tasks.Keys, keep) == TasksOf(tasks, projectId);
    Filter(order, keep)
  }

  function DetailOf(users: map<Id, User>, id: Id, t: Task): DetailTask
  {
    DetailTask(id, t.title, t.description, t.status, t.priority, t.dueDate, AssigneeOf(users, t.assignedTo))
  }

  function Details(users: map<Id, User>, tasks: map<Id, Task>, ids: seq<Id>): (r: seq<DetailTask>)
    requires forall k | k in ids :: k in tasks
    ensures |r| == |ids| && forall i | 0 <= i < |ids| :: r[i] == DetailOf(users, ids[i], tasks[ids[i]])
  {
    if |ids| == 0 then [] else [DetailOf(users, ids[0], tasks[ids[0]])] + Details(users, tasks, ids[1..])
  }

  /** The formatted list shows each listed id once, and no other. */
  lemma DetailsShowEach(users: map<Id, User>, tasks: map<Id, Task>, ids: seq<Id>)
    requires forall k | k in ids :: k in tasks
    requires Distinct(ids)
    ensures var d := Details(users, tasks, ids);
      && (forall i, j | 0 <= i < j < |d| :: d[i].id != d[j].id)
      && (forall k | k in ids :: exists i | 0 <= i < |d| :: d[i].id == k)
      && (forall t | t in d :: t.id in ids)
  {
    var d := Details(users, tasks, ids);
    assert forall i | 0 <= i < |d| :: d[i].id == ids[i];
    forall k | k in ids
      ensures exists i | 0 <= i < |d| :: d[i].id == k
    {
      var i :| 0 <= i < |ids| && ids[i] == k;
      assert d[i].id == k;
    }
  }

  /** `tasks.filter(t => t.status === 'completed').length`. */
  function CountCompleted(items: seq<DetailTask>): nat
  {
    if |items| == 0 then 0
    else (if items[0].status == TaskCompleted then 1 else 0) + CountCompleted(items[1..])
  }

  /** The completed tasks among `ids`. */
  function CompletedAmong(tasks: map<Id, Task>, ids: seq<Id>): (r: set<Id>)
    requires forall k | k in ids :: k in tasks
    ensures forall k :: k in r <==> k in ids && tasks[k].status == TaskCompleted
  {
    set k | k in ids && tasks[k].status == TaskCompleted
  }

  /** Counting completed entries of the formatted list counts the completed tasks it shows. */
  lemma {:induction false} CountCompletedAmong(users: map<Id, User>, tasks: map<Id, Task>, ids: seq<Id>)
    requires forall k | k in ids :: k in tasks
    requires Distinct(ids)
    ensures CountCompleted(Details(users, tasks, ids)) == |CompletedAmong(tasks, ids)|
  {
    if |ids| > 0 {
      var rest := ids[1..];
      CountCompletedAmong(users, tasks, rest);
      var d := Details(users, tasks, ids);
      assert d[1..] == Details(users, tasks, rest);
      assert d[0].status == tasks[ids[0]].status;
      assert ids[0] !in rest;
      var done := CompletedAmong(tasks, rest);
      assert ids[0] !in done;
      if tasks[ids[0]].status == TaskCompleted {
        assert CompletedAmong(tasks, ids) == {ids[0]} + done;
        assert |{ids[0]} + done| == 1 + |done|;
      } else {
        assert CompletedAmong(tasks, ids) == done;
      }
    }
  }

  /** `getProjectById(projectId, requestingUser)`: the project, its creator, its tasks newest
      first (`taskOrder` is the task table in that order) and their counts. */
  function GetProjectById(db: Db, projectId: Id, requester: Claims, taskOrder: seq<Id>): (r: Result<ProjectDetail>)
    reads db
    requires Enumerates(taskOrder, db.tasks.Keys) && CreatorsExist(db.users, db.projects)
    ensures projectId !in db.projects ==> r == Err(ProjectNotFound)
    ensures projectId in db.projects && !InTenant(requester, db.projects[projectId].tenantId) ==>
      r == Err(ProjectElsewhere)
    ensures r.Ok? <==> projectId in db.projects && InTenant(requester, db.projects[projectId].tenantId)
    ensures r.Ok? ==>
      && r.value.id == projectId && r.value.tenantId == db.projects[projectId].tenantId
      && r.value.createdBy.id == db.projects[projectId].createdBy
      && r.value.createdBy.fullName == db.users[db.projects[projectId].createdBy].fullName
      && r.value.taskCount == |r.value.tasks| == |TasksOf(db.tasks, projectId)|
      && r.value.completedTaskCount == |CompletedTasks(db.tasks, projectId)|
      && (forall t | t in r.value.tasks :: t.id in TasksOf(db.tasks, projectId))
    ensures r.Ok? ==>
      var p := db.projects[projectId];
      && r.value.name == p.name && r.value.description == p.description && r.value.status == p.status
      && r.value.tasks == Details(db.users, db.tasks, ProjectTaskIds(db.tasks, taskOrder, projectId))
  {
    if projectId !in db.projects then Err(ProjectNotFound)
    else if !InTenant(requester, db.projects[projectId].tenantId) then Err(ProjectElsewhere)
    else Ok(ProjectDetailOf(db.users, db.tasks, taskOrder, projectId, db.projects[projectId]))
  }

  /** The detail of project `projectId`, whose row is `p`: its creator, its tasks in `taskOrder`
      and their counts. */
  function ProjectDetailOf(users: map<Id, User>, tasks: map<Id, Task>, taskOrder: seq<Id>, projectId: Id, p: Project): (d: ProjectDetail)
    requires Enumerates(taskOrder, tasks.Keys) && p.createdBy in users
    ensures d.id == projectId && d.tenantId == p.tenantId
    ensures d.createdBy.id == p.createdBy && d.createdBy.fullName == users[p.createdBy].fullName
    ensures d.taskCount == |d.tasks| == |TasksOf(tasks, projectId)|
    ensures d.completedTaskCount == |CompletedTasks(tasks, projectId)|
    ensures forall t | t in d.tasks :: t.id in TasksOf(tasks, projectId)
    ensures d.name == p.name && d.description == p.description && d.status == p.status
    ensures d.tasks == Details(users, tasks, ProjectTaskIds(tasks, taskOrder, projectId))
    ensures forall i, j | 0 <= i < j < |d.tasks| :: d.tasks[i].id != d.tasks[j].id
    ensures forall k | k in TasksOf(tasks, projectId) :: exists i | 0 <= i < |d.tasks| :: d.tasks[i].id == k
  {
    var ids := ProjectTaskIds(tasks, taskOrder, projectId);
    var shown := Details(users, tasks, ids);
    CountCompletedAmong(users, tasks, ids);
    assert CompletedAmong(tasks, ids) == CompletedTasks(tasks, projectId);
    DetailsShowEach(users, tasks, ids);
    ProjectDetail(projectId, p.tenantId, p.name, p.description, p.status, Creator(p.createdBy, users[p.createdBy].fullName),
                  |shown|, CountCompleted(shown), shown)
  }

  // ---------------------------------------------------------------- updateProject

  /** The fields of an update body the model reads: None is absent, `Some(None)` an explicit null. */
  datatype ProjectPatch = ProjectPatch(name: Option<string>, description: Option<Option<string>>,
                                       status: Option<ProjectStatus>)

  predicate PatchEmpty(u: ProjectPatch)
  {
    u.name.None? && u.description.None? && u.status.None?
  }

  /** The project after `updateData` is written: the given fields replace the stored ones; the
      tenant and the creator never change. */
  function Patched(p: Project, u: ProjectPatch): (r: Project)
    ensures r.tenantId == p.tenantId && r.createdBy == p.createdBy
    ensures r.name == (if u.name.Some? then u.name.value else p.name)
    ensures r.description == (if u.description.Some? then u.description.value else p.description)
    ensures r.status == (if u.status.Some? then u.status.value else p.status)
  {
    p.(name := if u.name.Some? then u.name.value else p.name,
       description := if u.description.Some? then u.description.value else p.description,
       status := if u.status.Some? then u.status.value else p.status)
  }

  datatype UpdatedProject = UpdatedProject(id: Id, name: string, description: Option<string>, status: ProjectStatus)

  /** `updateProject(projectId, updates, requestingUser)`. */
  method UpdateProject(db: Db, projectId: Id, updates: ProjectPatch, requester: Claims) returns (r: Result<UpdatedProject>)
    requires db.Valid()
    modifies db
    ensures db.Valid()
    ensures db.tenants == old(db.tenants) && db.users == old(db.users) && db.tasks == old(db.tasks)
    ensures projectId !in old(db.projects) ==> r == Err(ProjectNotFound)
    ensures projectId in old(db.projects) && !InTenant(requester, old(db.projects)[projectId].tenantId) ==>
      r == Err(ProjectElsewhere)
    ensures (projectId in old(db.projects) && InTenant(requester, old(db.projects)[projectId].tenantId)
             && !MayChange(requester, old(db.projects)[projectId])) ==>
      r == Err(NotUpdater)
    ensures (projectId in old(db.projects) && InTenant(requester, old(db.projects)[projectId].tenantId)
             && MayChange(requester, old(db.projects)[projectId]) && PatchEmpty(updates)) ==>
      r == Err(NothingToUpdate)
    ensures r.Ok? <==> (projectId in old(db.projects) && InTenant(requester, old(db.projects)[projectId].tenantId)
                        && MayChange(requester, old(db.projects)[projectId]) && !PatchEmpty(updates))
    ensures r.Err? ==> db.projects == old(db.projects)
    ensures r.Ok? ==>
      var p := Patched(old(db.projects)[projectId], updates);
      db.projects == old(db.projects)[projectId := p]
      && r.value == UpdatedProject(projectId, p.name, p.description, p.status)
  {
    if projectId !in db.projects {
      return Err(ProjectNotFound);
    }
    var project := db.projects[projectId];
    if requester.tenantId != Some(project.tenantId) {
      return Err(ProjectElsewhere);
    }
    if requester.role != TenantAdmin && requester.userId != project.createdBy {
      return Err(NotUpdater);
    }
    var data := project;
    var written := false;
    if updates.name.Some? { data := data.(name := updates.name.value); written := true; }
    if updates.description.Some? { data := data.(description := updates.description.value); written := true; }
    if updates.status.Some? { data := data.(status := updates.status.value); written := true; }
    if !written {
      return Err(NothingToUpdate);
    }
    assert data == Patched(project, updates);
    PutProjectConsistent(db.tenants, db.users, db.projects, db.tasks, projectId, data);
    db.projects := db.projects[projectId := data];
    return Ok(UpdatedProject(projectId, data.name, data.description, data.status));
  }

  // ---------------------------------------------------------------- deleteProject

  /** `deleteProject(projectId, requestingUser)`: removes the project, and the database's cascade
      removes its tasks; every other task stays as it was. */
  method DeleteProject(db: Db, projectId: Id, requester: Claims) returns (r: Result<string>)
    requires db.Valid()
    modifies db
    ensures db.Valid()
    ensures db.tenants == old(db.tenants) && db.users == old(db.users)
    ensures projectId !in old(db.projects) ==> r == Err(ProjectNotFound)
    ensures projectId in old(db.projects) && !InTenant(requester, old(db.projects)[projectId].tenantId) ==>
      r == Err(ProjectElsewhere)
    ensures (projectId in old(db.projects) && InTenant(requester, old(db.projects)[projectId].tenantId)
             && !MayChange(requester, old(db.projects)[projectId])) ==>
      r == Err(NotDeleter)
    ensures r.Ok? <==> (projectId in old(db.projects) && InTenant(requester, old(db.projects)[projectId].tenantId)
                        && MayChange(requester, old(db.projects)[projectId]))
    ensures r.Err? ==> db.projects == old(db.projects) && db.tasks == old(db.tasks)
    ensures r.Ok? ==>
      && r.value == ProjectDeleted
      && db.projects == old(db.projects) - {projectId}
      && (forall k | k in db.tasks :: db.tasks[k].projectId != projectId)
      && (forall k | k in old(db.tasks) && old(db.tasks)[k].projectId != projectId ::
            k in db.tasks && db.tasks[k] == old(db.tasks)[k])
      && db.tasks.Keys <= old(db.tasks).Keys
  {
    if projectId !in db.projects {
      return Err(ProjectNotFound);
    }
    var project := db.projects[projectId];
    if requester.tenantId != Some(project.tenantId) {
      return Err(ProjectElsewhere);
    }
    if requester.role != TenantAdmin && requester.userId != project.createdBy {
      return Err(NotDeleter);
    }
    DeleteProjectConsistent(db.tenants, db.users, db.projects, db.tasks, projectId);
    db.projects := db.projects - {projectId};
    db.tasks := TasksOutside(db.tasks, projectId);
    return Ok(ProjectDeleted);
  }
}
