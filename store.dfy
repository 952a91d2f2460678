/** The database the models work on: four tables keyed by row id, and the consistency the
    models keep between them (every reference points at an existing row of the right tenant,
    subdomains are unique, e-mails are unique within a tenant). */
module Store {
  import opened Types

  /** A stored password hash. Hashing is not modelled: the digest remembers the password, and
      comparing a password with a digest succeeds exactly for the password it was made from. */
  datatype Digest = Digest(password: string)

  function HashPassword(password: string): Digest
  {
    Digest(password)
  }

  predicate ComparePassword(password: string, hash: Digest)
  {
    hash.password == password
  }

  datatype Tenant = Tenant(name: string, subdomain: string, status: TenantStatus, subscriptionPlan: Plan,
                           maxUsers: int, maxProjects: int)

  datatype User = User(tenantId: Option<Id>, email: string, passwordHash: Digest, fullName: string,
                       role: Role, isActive: bool)

  datatype Project = Project(tenantId: Id, name: string, description: Option<string>,
                             status: ProjectStatus, createdBy: Id)

  /** `dueDate` is a point in time, kept as a number; `description` None is SQL null. */
  datatype Task = Task(projectId: Id, tenantId: Id, title: string, description: Option<string>,
                       status: TaskStatus, priority: Priority, assignedTo: Option<Id>, dueDate: Option<int>)

  // ---------------------------------------------------------------- field defaults and relations

  /** `x || null` on an optional text: the empty string becomes null. */
  function OrNull(s: Option<string>): (r: Option<string>)
    ensures r.Some? <==> s.Some? && s.value != ""
    ensures r.Some? ==> r == s
  {
    if s.Some? && s.value != "" then s else None
  }

  /** The public fields of an assignee. */
  datatype Person = Person(id: Id, fullName: string, email: string)

  /** The `include: { assignee }` relation of a task: the assigned user's public fields, or null. */
  function AssigneeOf(users: map<Id, User>, assignedTo: Option<Id>): (p: Option<Person>)
    ensures p.Some? <==> assignedTo.Some? && assignedTo.value in users
    ensures p.Some? ==>
      p.value.id == assignedTo.value && p.value.fullName == users[assignedTo.value].fullName
      && p.value.email == users[assignedTo.value].email
  {
    if assignedTo.Some? && assignedTo.value in users then
      var u := users[assignedTo.value];
      Some(Person(assignedTo.value, u.fullName, u.email))
    else None
  }

  // ---------------------------------------------------------------- consistency

  predicate UsersBelong(tenants: map<Id, Tenant>, users: map<Id, User>)
  {
    forall u | u in users && users[u].tenantId.Some? :: users[u].tenantId.value in tenants
  }

  predicate ProjectsBelong(tenants: map<Id, Tenant>, projects: map<Id, Project>)
  {
    forall p | p in projects :: projects[p].tenantId in tenants
  }

  /** A task hangs off an existing project, carries that project's tenant, and is assigned to
      nobody or to an existing user of the same tenant. */
  predicate TaskFits(users: map<Id, User>, projects: map<Id, Project>, t: Task)
  {
    && t.projectId in projects
    && projects[t.projectId].tenantId == t.tenantId
    && (t.assignedTo.Some? ==> t.assignedTo.value in users && users[t.assignedTo.value].tenantId == Some(t.tenantId))
  }

  predicate TasksFit(users: map<Id, User>, projects: map<Id, Project>, tasks: map<Id, Task>)
  {
    forall k | k in tasks :: TaskFits(users, projects, tasks[k])
  }

  /** Every project's `createdBy` names an existing user (the `creator` relation is required). */
  predicate CreatorsExist(users: map<Id, User>, projects: map<Id, Project>)
  {
    forall p | p in projects :: projects[p].createdBy in users
  }

  predicate SubdomainsUnique(tenants: map<Id, Tenant>)
  {
    forall a, b | a in tenants && b in tenants && a != b :: tenants[a].subdomain != tenants[b].subdomain
  }

  /** No two users share an e-mail within one tenant (users without a tenant count as one scope). */
  predicate EmailsUnique(users: map<Id, User>)
  {
    forall a, b | a in users && b in users && a != b && users[a].tenantId == users[b].tenantId ::
      users[a].email != users[b].email
  }

  /** The schema's rule that a super admin belongs to no tenant. The models as written do not
      keep it (a user update can break it), so it is not part of `Consistent`. */
  predicate SuperAdminsUnscoped(users: map<Id, User>)
  {
    forall u | u in users && users[u].role == SuperAdmin :: users[u].tenantId.None?
  }

  predicate Consistent(tenants: map<Id, Tenant>, users: map<Id, User>, projects: map<Id, Project>, tasks: map<Id, Task>)
  {
    && UsersBelong(tenants, users)
    && ProjectsBelong(tenants, projects)
    && TasksFit(users, projects, tasks)
    && CreatorsExist(users, projects)
    && SubdomainsUnique(tenants)
    && EmailsUnique(users)
  }

  /** The database handle the models are given. */
  class Db {
    var tenants: map<Id, Tenant>
    var users: map<Id, User>
    var projects: map<Id, Project>
    var tasks: map<Id, Task>

    ghost predicate Valid()
      reads this
    {
      Consistent(tenants, users, projects, tasks)
    }

    constructor ()
      ensures Valid()
      ensures tenants == map[] && users == map[] && projects == map[] && tasks == map[]
    {
      tenants, users, projects, tasks := map[], map[], map[], map[];
    }
  }

  // ---------------------------------------------------------------- counts

  /** The projects `where: { tenantId }` selects. */
  function TenantProjects(projects: map<Id, Project>, tenantId: Id): (r: set<Id>)
    ensures forall k :: k in r <==> k in projects && projects[k].tenantId == tenantId
  {
    set k | k in projects && projects[k].tenantId == tenantId
  }

  /** The users `where: { tenantId }` selects. */
  function TenantUsers(users: map<Id, User>, tenantId: Id): (r: set<Id>)
    ensures forall k :: k in r <==> k in users && users[k].tenantId == Some(tenantId)
  {
    set k | k in users && users[k].tenantId == Some(tenantId)
  }

  /** `prisma.project.count({ where: { tenantId } })`. */
  function ProjectCount(projects: map<Id, Project>, tenantId: Id): nat
  {
    |TenantProjects(projects, tenantId)|
  }

  /** `prisma.user.count({ where: { tenantId } })`. */
  function UserCount(users: map<Id, User>, tenantId: Id): nat
  {
    |TenantUsers(users, tenantId)|
  }

  /** Inserting a new project raises its tenant's count by one and leaves the others alone. */
  lemma ProjectCountInsert(projects: map<Id, Project>, id: Id, p: Project, tenantId: Id)
    requires id !in projects
    ensures ProjectCount(projects[id := p], tenantId)
         == ProjectCount(projects, tenantId) + (if p.tenantId == tenantId then 1 else 0)
  {
    var before, after := TenantProjects(projects, tenantId), TenantProjects(projects[id := p], tenantId);
    if p.tenantId == tenantId {
      assert after == before + {id};
    } else {
      assert after == before;
    }
  }

  /** Inserting a new user raises its tenant's count by one and leaves the others alone. */
  lemma UserCountInsert(users: map<Id, User>, id: Id, u: User, tenantId: Id)
    requires id !in users
    ensures UserCount(users[id := u], tenantId)
         == UserCount(users, tenantId) + (if u.tenantId == Some(tenantId) then 1 else 0)
  {
    var before, after := TenantUsers(users, tenantId), TenantUsers(users[id := u], tenantId);
    if u.tenantId == Some(tenantId) {
      assert after == before + {id};
    } else {
      assert after == before;
    }
  }

  // ---------------------------------------------------------------- the subscription caps

  /** Every tenant holds at most `maxProjects` projects. */
  predicate WithinProjectCap(tenants: map<Id, Tenant>, projects: map<Id, Project>)
  {
    forall t | t in tenants :: ProjectCount(projects, t) <= tenants[t].maxProjects
  }

  /** Inserting a project into a tenant that is below its cap keeps every tenant within its cap. */
  lemma InsertKeepsProjectCap(tenants: map<Id, Tenant>, projects: map<Id, Project>, id: Id, p: Project)
    requires WithinProjectCap(tenants, projects) && id !in projects
    requires p.tenantId in tenants && ProjectCount(projects, p.tenantId) < tenants[p.tenantId].maxProjects
    ensures WithinProjectCap(tenants, projects[id := p])
  {
    forall t | t in tenants ensures ProjectCount(projects[id := p], t) <= tenants[t].maxProjects {
      ProjectCountInsert(projects, id, p, t);
    }
  }

  /** Every tenant holds at most `maxUsers` users. */
  predicate WithinUserCap(tenants: map<Id, Tenant>, users: map<Id, User>)
  {
    forall t | t in tenants :: UserCount(users, t) <= tenants[t].maxUsers
  }

  /** Inserting a user into a tenant that is below its cap keeps every tenant within its cap. */
  lemma InsertKeepsUserCap(tenants: map<Id, Tenant>, users: map<Id, User>, id: Id, u: User)
    requires WithinUserCap(tenants, users) && id !in users
    requires u.tenantId.Some? && u.tenantId.value in tenants
    requires UserCount(users, u.tenantId.value) < tenants[u.tenantId.value].maxUsers
    ensures WithinUserCap(tenants, users[id := u])
  {
    forall t | t in tenants ensures UserCount(users[id := u], t) <= tenants[t].maxUsers {
      UserCountInsert(users, id, u, t);
    }
  }

  // ---------------------------------------------------------------- changes that keep consistency

  /** Writing a task that fits (a new one, or a new version of an old one). */
  lemma PutTaskConsistent(tenants: map<Id, Tenant>, users: map<Id, User>, projects: map<Id, Project>,
                          tasks: map<Id, Task>, id: Id, t: Task)
    requires Consistent(tenants, users, projects, tasks) && TaskFits(users, projects, t)
    ensures Consistent(tenants, users, projects, tasks[id := t])
  {
  }

  lemma DeleteTaskConsistent(tenants: map<Id, Tenant>, users: map<Id, User>, projects: map<Id, Project>,
                             tasks: map<Id, Task>, id: Id)
    requires Consistent(tenants, users, projects, tasks)
    ensures Consistent(tenants, users, projects, tasks - {id})
  {
  }

  /** Writing a project of an existing tenant by an existing user, keeping the tenant of a project
      that existed. */
  lemma PutProjectConsistent(tenants: map<Id, Tenant>, users: map<Id, User>, projects: map<Id, Project>,
                             tasks: map<Id, Task>, id: Id, p: Project)
    requires Consistent(tenants, users, projects, tasks)
    requires p.tenantId in tenants && p.createdBy in users
    requires id in projects ==> projects[id].tenantId == p.tenantId
    ensures Consistent(tenants, users, projects[id := p], tasks)
  {
    var projects' := projects[id := p];
    forall k | k in tasks ensures TaskFits(users, projects', tasks[k]) {
      assert TaskFits(users, projects, tasks[k]);
    }
  }

  /** The tasks that survive when project `id` is deleted: the database cascades the delete. */
  function TasksOutside(tasks: map<Id, Task>, id: Id): (r: map<Id, Task>)
    ensures forall k :: k in r <==> k in tasks && tasks[k].projectId != id
    ensures forall k | k in r :: r[k] == tasks[k]
  {
    map k | k in tasks && tasks[k].projectId != id :: tasks[k]
  }

  lemma DeleteProjectConsistent(tenants: map<Id, Tenant>, users: map<Id, User>, projects: map<Id, Project>,
                                tasks: map<Id, Task>, id: Id)
    requires Consistent(tenants, users, projects, tasks)
    ensures Consistent(tenants, users, projects - {id}, TasksOutside(tasks, id))
  {
    var tasks' := TasksOutside(tasks, id);
    forall k | k in tasks' ensures TaskFits(users, projects - {id}, tasks'[k]) {
      assert TaskFits(users, projects, tasks[k]);
    }
  }

  /** Whether a user with this tenant and e-mail could join without breaking uniqueness. */
  predicate EmailFree(users: map<Id, User>, tenantId: Option<Id>, email: string)
  {
    forall u | u in users && users[u].tenantId == tenantId :: users[u].email != email
  }

  /** Adding a new user of an existing tenant with an unused e-mail. */
  lemma AddUserConsistent(tenants: map<Id, Tenant>, users: map<Id, User>, projects: map<Id, Project>,
                          tasks: map<Id, Task>, id: Id, u: User)
    requires Consistent(tenants, users, projects, tasks)
    requires id !in users
    requires u.tenantId.Some? ==> u.tenantId.value in tenants
    requires EmailFree(users, u.tenantId, u.email)
    ensures Consistent(tenants, users[id := u], projects, tasks)
  {
    var users' := users[id := u];
    forall k | k in tasks ensures TaskFits(users', projects, tasks[k]) {
      assert TaskFits(users, projects, tasks[k]);
    }
  }

  /** Rewriting an existing user without moving it to another tenant or changing its e-mail. */
  lemma ChangeUserConsistent(tenants: map<Id, Tenant>, users: map<Id, User>, projects: map<Id, Project>,
                             tasks: map<Id, Task>, id: Id, u: User)
    requires Consistent(tenants, users, projects, tasks)
    requires id in users && users[id].tenantId == u.tenantId && users[id].email == u.email
    ensures Consistent(tenants, users[id := u], projects, tasks)
  {
    var users' := users[id := u];
    forall k | k in tasks ensures TaskFits(users', projects, tasks[k]) {
      assert TaskFits(users, projects, tasks[k]);
    }
  }

  /** The tasks after `updateMany({ where: { assignedTo: id }, data: { assignedTo: null } })`. */
  function Unassign(tasks: map<Id, Task>, id: Id): (r: map<Id, Task>)
    ensures r.Keys == tasks.Keys
    ensures forall k | k in r :: r[k] == if tasks[k].assignedTo == Some(id) then tasks[k].(assignedTo := None) else tasks[k]
    ensures forall k | k in r :: r[k].assignedTo != Some(id)
  {
    map k | k in tasks :: if tasks[k].assignedTo == Some(id) then tasks[k].(assignedTo := None) else tasks[k]
  }

  /** Whether user `id` created some project (its delete is then refused by the database). */
  predicate CreatedAny(projects: map<Id, Project>, id: Id)
  {
    exists p | p in projects :: projects[p].createdBy == id
  }

  /** Clearing a user's assignments keeps consistency whether or not the user row then goes. */
  lemma UnassignConsistent(tenants: map<Id, Tenant>, users: map<Id, User>, projects: map<Id, Project>,
                           tasks: map<Id, Task>, id: Id)
    requires Consistent(tenants, users, projects, tasks)
    ensures Consistent(tenants, users, projects, Unassign(tasks, id))
    ensures !CreatedAny(projects, id) ==> Consistent(tenants, users - {id}, projects, Unassign(tasks, id))
  {
    var tasks' := Unassign(tasks, id);
    forall k | k in tasks' ensures TaskFits(users, projects, tasks'[k]) && TaskFits(users - {id}, projects, tasks'[k]) {
      assert TaskFits(users, projects, tasks[k]);
    }
  }

  /** Adding a new tenant whose subdomain is not taken. */
  lemma AddTenantConsistent(tenants: map<Id, Tenant>, users: map<Id, User>, projects: map<Id, Project>,
                            tasks: map<Id, Task>, id: Id, t: Tenant)
    requires Consistent(tenants, users, projects, tasks)
    requires id !in tenants
    requires forall k | k in tenants :: tenants[k].subdomain != t.subdomain
    ensures Consistent(tenants[id := t], users, projects, tasks)
  {
  }

  /** Rewriting an existing tenant without changing its subdomain. */
  lemma ChangeTenantConsistent(tenants: map<Id, Tenant>, users: map<Id, User>, projects: map<Id, Project>,
                               tasks: map<Id, Task>, id: Id, t: Tenant)
    requires Consistent(tenants, users, projects, tasks)
    requires id in tenants && tenants[id].subdomain == t.subdomain
    ensures Consistent(tenants[id := t], users, projects, tasks)
  {
  }
}
