/** Registration, login and the current user's profile. Registration creates a tenant on the free
    plan and its first tenant admin in one transaction; login finds the user within the tenant
    named by the subdomain (or, without one, among the super admins) and signs the user's claims. */
module AuthModel {
  import opened Types
  import opened Store
  import opened Listing

  const SubdomainExists := Conflict("Subdomain already exists")
  const TenantNotFound := NotFound("Tenant not found")
  const TenantInactive := Forbidden("Tenant account is suspended or inactive")
  const InvalidCredentials := ApiError(401, "Invalid credentials")
  const AccountInactive := Forbidden("Account is inactive")
  const UserNotFound := NotFound("User not found")

  /** A session lasts 24 hours, given in seconds. */
  const ExpiresIn := 86400

  // ---------------------------------------------------------------- registerTenant

  /** The registration request after the controller's checks. */
  datatype Registration = Registration(tenantName: string, subdomain: string, adminEmail: string,
                                       adminPassword: string, adminFullName: string)

  datatype AdminView = AdminView(id: Id, email: string, fullName: string, role: Role)

  datatype Registered = Registered(tenantId: Id, subdomain: string, adminUser: AdminView)

  /** A new tenant: active, on the free plan, with room for 5 users and 3 projects. */
  function NewTenant(data: Registration): (t: Tenant)
    ensures t.name == data.tenantName && t.subdomain == data.subdomain
    ensures t.status == TenantActive && t.subscriptionPlan == Free && t.maxUsers == 5 && t.maxProjects == 3
  {
    Tenant(data.tenantName, data.subdomain, TenantActive, Free, 5, 3)
  }

  /** Its first user: an active tenant admin whose stored hash accepts the given password. */
  function NewAdmin(tenantId: Id, data: Registration): (u: User)
    ensures u.tenantId == Some(tenantId) && u.email == data.adminEmail && u.fullName == data.adminFullName
    ensures u.role == TenantAdmin && u.isActive && ComparePassword(data.adminPassword, u.passwordHash)
  {
    User(Some(tenantId), data.adminEmail, HashPassword(data.adminPassword), data.adminFullName, TenantAdmin, true)
  }

  predicate SubdomainTaken(tenants: map<Id, Tenant>, subdomain: string)
  {
    exists k | k in tenants :: tenants[k].subdomain == subdomain
  }

  /** A new tenant id has no users yet. */
  lemma NewTenantHasNoUsers(tenants: map<Id, Tenant>, users: map<Id, User>, tenantId: Id)
    requires UsersBelong(tenants, users) && tenantId !in tenants
    ensures forall u | u in users :: users[u].tenantId != Some(tenantId)
    ensures UserCount(users, tenantId) == 0
  {
    assert TenantUsers(users, tenantId) == {};
  }

  /** Registering a tenant with its admin keeps every tenant within its caps. */
  lemma RegisterKeepsCaps(tenants: map<Id, Tenant>, users: map<Id, User>, projects: map<Id, Project>,
                          tenantId: Id, userId: Id, data: Registration)
    requires Consistent(tenants, users, projects, map[]) && tenantId !in tenants && userId !in users
    requires WithinUserCap(tenants, users) && WithinProjectCap(tenants, projects)
    ensures WithinUserCap(tenants[tenantId := NewTenant(data)], users[userId := NewAdmin(tenantId, data)])
    ensures WithinProjectCap(tenants[tenantId := NewTenant(data)], projects)
  {
    var tenants', users' := tenants[tenantId := NewTenant(data)], users[userId := NewAdmin(tenantId, data)];
    NewTenantHasNoUsers(tenants, users, tenantId);
    forall t | t in tenants' ensures UserCount(users', t) <= tenants'[t].maxUsers {
      UserCountInsert(users, userId, NewAdmin(tenantId, data), t);
    }
    forall t | t in tenants' ensures ProjectCount(projects, t) <= tenants'[t].maxProjects {
      if t == tenantId {
        assert TenantProjects(projects, t) == {};
      }
    }
  }

  /** `registerTenant(data)`; `tenantId` and `userId` are the identifiers the database generates.
      The two inserts are staged and committed together: afterwards both rows exist or neither. */
  method RegisterTenant(db: Db, data: Registration, tenantId: Id, userId: Id) returns (r: Result<Registered>)
    requires db.Valid() && tenantId !in db.tenants && userId !in db.users
    modifies db
    ensures db.Valid()
    ensures db.projects == old(db.projects) && db.tasks == old(db.tasks)
    ensures SubdomainTaken(old(db.tenants), data.subdomain) ==> r == Err(SubdomainExists)
    ensures r.Ok? <==> !SubdomainTaken(old(db.tenants), data.subdomain)
    ensures r.Err? ==> db.tenants == old(db.tenants) && db.users == old(db.users)
    ensures r.Ok? ==>
      && db.tenants == old(db.tenants)[tenantId := NewTenant(data)]
      && db.users == old(db.users)[userId := NewAdmin(tenantId, data)]
      && r.value == Registered(tenantId, data.subdomain, AdminView(userId, data.adminEmail, data.adminFullName, TenantAdmin))
  {
    if SubdomainTaken(db.tenants, data.subdomain) {
      return Err(SubdomainExists);
    }
    var tenant := NewTenant(data);
    var admin := NewAdmin(tenantId, data);
    var tenants := db.tenants[tenantId := tenant];
    AddTenantConsistent(db.tenants, db.users, db.projects, db.tasks, tenantId, tenant);
    NewTenantHasNoUsers(db.tenants, db.users, tenantId);
    AddUserConsistent(tenants, db.users, db.projects, db.tasks, userId, admin);
    db.tenants, db.users := tenants, db.users[userId := admin];
    return Ok(Registered(tenantId, tenant.subdomain, AdminView(userId, admin.email, admin.fullName, admin.role)));
  }

  // ---------------------------------------------------------------- login

  /** JavaScript truthiness of the optional subdomain: absent or empty means none. */
  predicate Given(subdomain: Option<string>)
  {
    subdomain.Some? && subdomain.value != ""
  }

  /** `tenant.findUnique({ where: { subdomain } })` over the tenants in `order`. */
  function TenantBySubdomain(tenants: map<Id, Tenant>, order: seq<Id>, subdomain: string): (r: Option<Id>)
    requires Enumerates(order, tenants.Keys)
    ensures r.Some? ==> r.value in tenants && tenants[r.value].subdomain == subdomain
    ensures r.None? <==> !SubdomainTaken(tenants, subdomain)
  {
    First(order, k => k in tenants && tenants[k].subdomain == subdomain)
  }

  /** The scope a login searches: the tenant the subdomain names, which must exist and be active,
      or, without a subdomain, the users with no tenant. */
  function Scope(db: Db, tenantSubdomain: Option<string>, tenantOrder: seq<Id>): (r: Result<Option<Id>>)
    reads db
    requires Enumerates(tenantOrder, db.tenants.Keys)
    ensures !Given(tenantSubdomain) ==> r == Ok(None)
    ensures Given(tenantSubdomain) && !SubdomainTaken(db.tenants, tenantSubdomain.value) ==> r == Err(TenantNotFound)
    ensures (Given(tenantSubdomain) && r != Err(TenantNotFound)) ==>
      var t := TenantBySubdomain(db.tenants, tenantOrder, tenantSubdomain.value);
      && t.Some?
      && (db.tenants[t.value].status != TenantActive ==> r == Err(TenantInactive))
      && (db.tenants[t.value].status == TenantActive ==> r == Ok(t))
  {
    if !Given(tenantSubdomain) then Ok(None)
    else
      match TenantBySubdomain(db.tenants, tenantOrder, tenantSubdomain.value)
      case None => Err(TenantNotFound)
      case Some(t) => if db.tenants[t].status != TenantActive then Err(TenantInactive) else Ok(Some(t))
  }

  /** The user a login looks for: this e-mail in this tenant, or a super admin without a tenant. */
  predicate InScope(u: User, email: string, scope: Option<Id>)
  {
    u.email == email && u.tenantId == scope && (scope.None? ==> u.role == SuperAdmin)
  }

  /** `user.findFirst({ where })` over the users in `order`. */
  function UserInScope(users: map<Id, User>, order: seq<Id>, email: string, scope: Option<Id>): (r: Option<Id>)
    requires Enumerates(order, users.Keys)
    ensures r.Some? ==> r.value in users && InScope(users[r.value], email, scope)
    ensures r.None? ==> forall k | k in users :: !InScope(users[k], email, scope)
  {
    First(order, k => k in users && InScope(users[k], email, scope))
  }

  /** With e-mails unique per tenant, the lookup finds the one user in scope, whatever the order. */
  lemma UserInScopeUnique(users: map<Id, User>, order: seq<Id>, email: string, scope: Option<Id>, id: Id)
    requires Enumerates(order, users.Keys) && EmailsUnique(users)
    requires id in users && InScope(users[id], email, scope)
    ensures UserInScope(users, order, email, scope) == Some(id)
  {
    var r := UserInScope(users, order, email, scope);
    assert r.Some?;
    assert users[r.value].tenantId == users[id].tenantId && users[r.value].email == users[id].email;
  }

  datatype SessionUser = SessionUser(id: Id, email: string, fullName: string, role: Role, tenantId: Option<Id>)

  datatype Session = Session(user: SessionUser, token: string, expiresIn: int)

  /** `login({ email, password, tenantSubdomain })`. Signing is the parameter `sign`; the tables
      are searched in `tenantOrder` and `userOrder`. An inactive account is reported before the
      password is compared, and an unknown user and a wrong password give the same error. */
  function Login(db: Db, email: string, password: string, tenantSubdomain: Option<string>,
                 tenantOrder: seq<Id>, userOrder: seq<Id>, sign: Claims -> string): (r: Result<Session>)
    reads db
    requires Enumerates(tenantOrder, db.tenants.Keys) && Enumerates(userOrder, db.users.Keys)
    ensures Scope(db, tenantSubdomain, tenantOrder).Err? ==> r == Err(Scope(db, tenantSubdomain, tenantOrder).error)
    ensures (Scope(db, tenantSubdomain, tenantOrder).Ok?
             && UserInScope(db.users, userOrder, email, Scope(db, tenantSubdomain, tenantOrder).value).None?) ==>
      r == Err(InvalidCredentials)
    ensures (Scope(db, tenantSubdomain, tenantOrder).Ok?
             && UserInScope(db.users, userOrder, email, Scope(db, tenantSubdomain, tenantOrder).value).Some?) ==>
      var u := db.users[UserInScope(db.users, userOrder, email, Scope(db, tenantSubdomain, tenantOrder).value).value];
      && (!u.isActive ==> r == Err(AccountInactive))
      && (u.isActive && !ComparePassword(password, u.passwordHash) ==> r == Err(InvalidCredentials))
      && (u.isActive && ComparePassword(password, u.passwordHash) ==> r.Ok?)
    ensures r.Ok? ==>
      var id := r.value.user.id;
      && id in db.users
      && InScope(db.users[id], email, Scope(db, tenantSubdomain, tenantOrder).value)
      && db.users[id].isActive && ComparePassword(password, db.users[id].passwordHash)
      && r.value.token == sign(Claims(id, db.users[id].tenantId, db.users[id].role))
      && r.value.user == SessionUser(id, db.users[id].email, db.users[id].fullName, db.users[id].role, db.users[id].tenantId)
      && r.value.expiresIn == 86400
  {
    var scope := Scope(db, tenantSubdomain, tenantOrder);
    if scope.Err? then Err(scope.error)
    else
      match UserInScope(db.users, userOrder, email, scope.value)
      case None => Err(InvalidCredentials)
      case Some(id) =>
        var u := db.users[id];
        if !u.isActive then Err(AccountInactive)
        else if !ComparePassword(password, u.passwordHash) then Err(InvalidCredentials)
        else Ok(Session(SessionUser(id, u.email, u.fullName, u.role, u.tenantId),
                        sign(Claims(id, u.tenantId, u.role)), ExpiresIn))
  }

  /** A login without a subdomain only ever signs a super admin without a tenant. */
  lemma LoginWithoutSubdomainIsSuperAdmin(db: Db, email: string, password: string, tenantSubdomain: Option<string>,
                                          tenantOrder: seq<Id>, userOrder: seq<Id>, sign: Claims -> string)
    requires Enumerates(tenantOrder, db.tenants.Keys) && Enumerates(userOrder, db.users.Keys)
    requires !Given(tenantSubdomain)
    ensures var r := Login(db, email, password, tenantSubdomain, tenantOrder, userOrder, sign);
      r.Ok? ==> r.value.user.role == SuperAdmin && r.value.user.tenantId.None?
  {
  }

  /** An active user of an active tenant, whose stored hash was made from `password`, can log in
      with the tenant's subdomain, and is signed in as exactly themselves. */
  lemma MemberCanLogIn(db: Db, tenantId: Id, userId: Id, password: string,
                       tenantOrder: seq<Id>, userOrder: seq<Id>, sign: Claims -> string)
    requires db.Valid() && Enumerates(tenantOrder, db.tenants.Keys) && Enumerates(userOrder, db.users.Keys)
    requires tenantId in db.tenants && db.tenants[tenantId].status == TenantActive && db.tenants[tenantId].subdomain != ""
    requires userId in db.users && db.users[userId].tenantId == Some(tenantId) && db.users[userId].isActive
    requires db.users[userId].passwordHash == HashPassword(password)
    ensures var u := db.users[userId];
      Login(db, u.email, password, Some(db.tenants[tenantId].subdomain), tenantOrder, userOrder, sign)
      == Ok(Session(SessionUser(userId, u.email, u.fullName, u.role, u.tenantId),
                    sign(Claims(userId, Some(tenantId), u.role)), 86400))
  {
    var subdomain := db.tenants[tenantId].subdomain;
    var t := TenantBySubdomain(db.tenants, tenantOrder, subdomain);
    assert SubdomainTaken(db.tenants, subdomain);
    assert t == Some(tenantId);
    assert Scope(db, Some(subdomain), tenantOrder) == Ok(Some(tenantId));
    UserInScopeUnique(db.users, userOrder, db.users[userId].email, Some(tenantId), userId);
  }

  /** An active super admin without a tenant, whose stored hash was made from `password`, can
      log in without a subdomain (absent or empty), and is signed in as exactly themselves. */
  lemma SuperAdminCanLogIn(db: Db, userId: Id, password: string, tenantSubdomain: Option<string>,
                           tenantOrder: seq<Id>, userOrder: seq<Id>, sign: Claims -> string)
    requires db.Valid() && Enumerates(tenantOrder, db.tenants.Keys) && Enumerates(userOrder, db.users.Keys)
    requires !Given(tenantSubdomain)
    requires userId in db.users && db.users[userId].role == SuperAdmin && db.users[userId].tenantId.None?
    requires db.users[userId].isActive && db.users[userId].passwordHash == HashPassword(password)
    ensures var u := db.users[userId];
      Login(db, u.email, password, tenantSubdomain, tenantOrder, userOrder, sign)
      == Ok(Session(SessionUser(userId, u.email, u.fullName, SuperAdmin, None),
                    sign(Claims(userId, None, SuperAdmin)), 86400))
  {
    assert Scope(db, tenantSubdomain, tenantOrder) == Ok(None);
    UserInScopeUnique(db.users, userOrder, db.users[userId].email, None, userId);
  }

  // ---------------------------------------------------------------- getCurrentUser

  datatype TenantInfo = TenantInfo(id: Id, name: string, subdomain: string, subscriptionPlan: Plan,
                                   maxUsers: int, maxProjects: int)

  datatype CurrentUser = CurrentUser(id: Id, email: string, fullName: string, role: Role, isActive: bool,
                                     tenant: Option<TenantInfo>)

  /** `getCurrentUser(userId)`: the profile with the user's tenant, or null for a user without one. */
  function GetCurrentUser(db: Db, userId: Id): (r: Result<CurrentUser>)
    reads db
    ensures userId !in db.users ==> r == Err(UserNotFound)
    ensures r.Ok? <==> userId in db.users
    ensures r.Ok? ==>
      var u := db.users[userId];
      && r.value.id == userId && r.value.email == u.email && r.value.fullName == u.fullName
      && r.value.role == u.role && r.value.isActive == u.isActive
      && (r.value.tenant.Some? <==> u.tenantId.Some? && u.tenantId.value in db.tenants)
      && (r.value.tenant.Some? ==>
            var t := db.tenants[u.tenantId.value];
            r.value.tenant.value
            == TenantInfo(u.tenantId.value, t.name, t.subdomain, t.subscriptionPlan, t.maxUsers, t.maxProjects))
  {
    if userId !in db.users then Err(UserNotFound)
    else
      var u := db.users[userId];
      var tenant :=
        if u.tenantId.Some? && u.tenantId.value in db.tenants then
          var t := db.tenants[u.tenantId.value];
          Some(TenantInfo(u.tenantId.value, t.name, t.subdomain, t.subscriptionPlan, t.maxUsers, t.maxProjects))
        else None;
      Ok(CurrentUser(userId, u.email, u.fullName, u.role, u.isActive, tenant))
  }

  /** In a consistent database a user has a tenant in the profile exactly when it belongs to one. */
  lemma CurrentUserTenantIffMember(db: Db, userId: Id)
    requires db.Valid() && userId in db.users
    ensures GetCurrentUser(db, userId).value.tenant.Some? <==> db.users[userId].tenantId.Some?
  {
  }
}
