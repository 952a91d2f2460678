/** The routes that put a role gate between authentication and the controller: adding and
    deleting users (tenant admins only), updating a tenant (tenant admins and super admins) and
    listing all tenants (super admins only). Each route runs the gate, then the request checks,
    then the model; the caller is the user authentication attached. */
module Routes {
  import opened Types
  import opened Listing
  import opened Validation
  import opened Store
  import opened Rbac
  import UsersController
  import UsersModel
  import TenantsController
  import TenantsModel
  import ErrorHandler

  /** What the gate answers a signed-in caller whose role it does not list. */
  const Insufficient := ApiError(403, "Forbidden: insufficient permissions")

  const TenantAdminsOnly: seq<RoleArg> := [Names(["tenant_admin"])]
  const TenantAndSuperAdmins: seq<RoleArg> := [Names(["tenant_admin", "super_admin"])]
  const SuperAdminsOnly: seq<RoleArg> := [Names(["super_admin"])]

  /** The three gates, read as the roles they let through. */
  lemma GatesAdmit(user: Claims)
    ensures RequireRole(TenantAdminsOnly, Some(user)) == Proceed <==> user.role == TenantAdmin
    ensures RequireRole(TenantAndSuperAdmins, Some(user)) == Proceed <==> user.role != PlainUser
    ensures RequireRole(SuperAdminsOnly, Some(user)) == Proceed <==> user.role == SuperAdmin
    ensures RequireRole(TenantAdminsOnly, Some(user)) != Proceed ==>
              RequireRole(TenantAdminsOnly, Some(user)) == Reject(Insufficient)
    ensures RequireRole(TenantAndSuperAdmins, Some(user)) != Proceed ==>
              RequireRole(TenantAndSuperAdmins, Some(user)) == Reject(Insufficient)
    ensures RequireRole(SuperAdminsOnly, Some(user)) != Proceed ==>
              RequireRole(SuperAdminsOnly, Some(user)) == Reject(Insufficient)
  {
  }

  // ---------------------------------------------------------------- POST /tenants/:tenantId/users

  /** Adds a user: the gate refuses everyone but tenant admins before the body is looked at,
      then the controller's checks, then the model. None stands for a request that goes on,
      with a value that is not text, to code outside this model; `numberText` is how
      JavaScript prints a number where the e-mail pattern tests one. */
  method AddUserRoute(db: Db, tenantId: string, body: Body, numberText: real -> string, user: Claims, id: Id)
    returns (r: Option<Result<UsersModel.UserView>>)
    requires db.Valid() && id !in db.users
    modifies db
    ensures db.Valid()
    ensures db.tenants == old(db.tenants) && db.projects == old(db.projects) && db.tasks == old(db.tasks)
    ensures user.role != TenantAdmin ==> r == Some(Err(Insufficient)) && db.users == old(db.users)
    ensures (user.role == TenantAdmin && UsersController.ValidateAddUser(tenantId, body, numberText).Err?) ==>
              r == Some(Err(UsersController.ValidateAddUser(tenantId, body, numberText).error)) && db.users == old(db.users)
    ensures r != Some(Err(UsersModel.NotUserAdder))
    ensures r.Some? && r.value.Ok? ==>
              && user.role == TenantAdmin && user.tenantId == Some(tenantId)
              && UsersController.ValidateAddUser(tenantId, body, numberText).Ok?
              && UsersController.ValidateAddUser(tenantId, body, numberText).value.Some?
              && db.users == old(db.users)[id := UsersModel.NewRow(tenantId,
                                               UsersController.ValidateAddUser(tenantId, body, numberText).value.value.data)]
    ensures WithinUserCap(db.tenants, old(db.users)) ==> WithinUserCap(db.tenants, db.users)
  {
    GatesAdmit(user);
    var gate := RequireRole(TenantAdminsOnly, Some(user));
    if gate.Reject? {
      return Some(Err(gate.error));
    }
    assert user.role == TenantAdmin;
    var checked := UsersController.ValidateAddUser(tenantId, body, numberText);
    if checked.Err? {
      return Some(Err(checked.error));
    }
    if checked.value.None? {
      return None;
    }
    var args := checked.value.value;
    assert args.tenantId == tenantId;
    var added := UsersModel.AddUser(db, args.tenantId, args.data, user, id);
    assert added != Err(UsersModel.NotUserAdder);
    return Some(added);
  }

  // ---------------------------------------------------------------- DELETE /users/:userId

  /** Deletes a user: the gate refuses everyone but tenant admins, then the id's shape is
      checked, then the model. */
  method DeleteUserRoute(db: Db, userId: string, user: Claims, refusal: string) returns (r: Result<string>)
    requires db.Valid()
    modifies db
    ensures db.Valid()
    ensures user.role != TenantAdmin ==> r == Err(Insufficient)
    ensures (user.role == TenantAdmin && !IsUuid(userId)) ==> r == Err(UsersController.BadUserId)
    ensures r != Err(UsersModel.NotUserDeleter)
    ensures r.Err? ==> db.users == old(db.users)
    ensures !(IsUuid(userId) && UsersModel.Reaches(old(db.users), userId, user)) ==> db.tasks == old(db.tasks)
    ensures db.tenants == old(db.tenants) && db.projects == old(db.projects)
    ensures r.Ok? <==> (IsUuid(userId) && UsersModel.Reaches(old(db.users), userId, user)
                        && !CreatedAny(db.projects, userId))
    ensures r.Ok? ==> db.users == old(db.users) - {userId}
  {
    GatesAdmit(user);
    var gate := RequireRole(TenantAdminsOnly, Some(user));
    if gate.Reject? {
      return Err(gate.error);
    }
    var checked := UsersController.ValidateDeleteUser(userId);
    if checked.Err? {
      return Err(checked.error);
    }
    r := UsersModel.DeleteUser(db, checked.value, user, refusal);
  }

  // ---------------------------------------------------------------- PUT /tenants/:tenantId

  /** Updates a tenant: the gate refuses plain users, then the controller's checks, then the
      model (which lets a tenant admin change only the name of their own tenant). */
  method UpdateTenantRoute(db: Db, tenantId: string, body: Body, user: Claims)
    returns (r: Result<TenantsModel.TenantView>)
    requires db.Valid()
    modifies db
    ensures db.Valid()
    ensures user.role == PlainUser ==> r == Err(Insufficient)
    ensures (user.role != PlainUser && TenantsController.ValidateUpdateTenant(tenantId, body).Err?) ==>
              r == Err(TenantsController.ValidateUpdateTenant(tenantId, body).error)
    ensures r != Err(TenantsModel.NotTenantUpdater)
    ensures db.users == old(db.users) && db.projects == old(db.projects) && db.tasks == old(db.tasks)
    ensures db.tenants.Keys == old(db.tenants).Keys
    ensures r.Err? ==> db.tenants == old(db.tenants)
    ensures r.Ok? ==> user.role != PlainUser && TenantsController.ValidateUpdateTenant(tenantId, body).Ok?
    ensures r.Ok? ==>
              && tenantId in old(db.tenants)
              && db.tenants == old(db.tenants)[tenantId := TenantsModel.Applied(old(db.tenants)[tenantId],
                   TenantsModel.Change(user.role, TenantsController.ValidateUpdateTenant(tenantId, body).value.1))]
    ensures r.Ok? && user.role == TenantAdmin ==>
              && user.tenantId == Some(tenantId) && Keys(body) == ["name"] && tenantId in old(db.tenants)
              && Get(body, "name").value.Str?
              && db.tenants == old(db.tenants)[tenantId := old(db.tenants)[tenantId].(name := Get(body, "name").value.s)]
  {
    GatesAdmit(user);
    var gate := RequireRole(TenantAndSuperAdmins, Some(user));
    if gate.Reject? {
      return Err(gate.error);
    }
    var checked := TenantsController.ValidateUpdateTenant(tenantId, body);
    if checked.Err? {
      return Err(checked.error);
    }
    assert user.role != PlainUser;
    var updates := checked.value.1;
    assert checked.value.0 == tenantId && updates.keys == Keys(body);
    UpdaterRefusalDiffers(TenantsModel.Restricted(updates.keys));
    r := TenantsModel.UpdateTenant(db, tenantId, updates, user);
    if r.Ok? && user.role == TenantAdmin {
      AdminUpdateRenames(old(db.tenants)[tenantId], user, tenantId, body);
    }
  }

  /** An update a tenant admin gets through is a body holding only a text `name`, for their own
      tenant, and it changes the row's name and nothing else. */
  lemma AdminUpdateRenames(t: Tenant, user: Claims, tenantId: string, body: Body)
    requires user.role == TenantAdmin && TenantsController.ValidateUpdateTenant(tenantId, body).Ok?
    requires var updates := TenantsController.ValidateUpdateTenant(tenantId, body).value.1;
      TenantsModel.Permitted(user, tenantId, updates) && !TenantsModel.ChangeEmpty(TenantsModel.Change(user.role, updates))
    ensures user.tenantId == Some(tenantId) && Keys(body) == ["name"] && Get(body, "name").value.Str?
    ensures TenantsModel.Applied(t, TenantsModel.Change(user.role, TenantsController.ValidateUpdateTenant(tenantId, body).value.1))
            == t.(name := Get(body, "name").value.s)
  {
    var updates := TenantsController.ValidateUpdateTenant(tenantId, body).value.1;
    TenantsModel.TenantAdminPermittedIffOnlyName(user, tenantId, updates);
    TenantsModel.TenantAdminOnlyRenames(t, user.role, updates);
  }

  /** The model's refusal of plain users differs from every answer it gives the roles the gate
      lets through. */
  lemma UpdaterRefusalDiffers(restricted: seq<string>)
    ensures TenantsModel.NotTenantUpdater != TenantsModel.TenantNotFound
    ensures TenantsModel.NotTenantUpdater != TenantsModel.UpdateElsewhere
    ensures TenantsModel.NotTenantUpdater != TenantsModel.NothingToUpdate
    ensures TenantsModel.NotTenantUpdater != TenantsModel.AdminRestricted(restricted)
  {
    assert |TenantsModel.UpdateElsewhere.message| != |TenantsModel.NotTenantUpdater.message|;
    UpdaterRefusalStart();
    RestrictedStart(restricted);
  }

  // The refusal and the restriction message differ in their first letter. Each message is
  // split so that its first letter sits in a short literal the solver reads directly.

  lemma UpdaterRefusalStart()
    ensures TenantsModel.NotTenantUpdater.message[0] == 'A'
  {
    RefusalHead("Access denied. Only tenant admins", " and super admins can update tenants");
  }

  lemma RefusalHead(start: string, rest: string)
    requires start == "Access denied. Only tenant admins" && rest == " and super admins can update tenants"
    ensures start[0] == 'A'
    ensures start + rest == "Access denied. Only tenant admins and super admins can update tenants"
  {
  }

  lemma RestrictedStart(restricted: seq<string>)
    ensures TenantsModel.AdminRestricted(restricted).message[0] == 'T'
  {
    var start := "Tenant admins can only update";
    var rest := " the 'name' field. Cannot update: ";
    RestrictedHead(start, rest);
    assert (start + rest + Join(restricted, ", "))[0] == start[0];
  }

  lemma RestrictedHead(start: string, rest: string)
    requires start == "Tenant admins can only update" && rest == " the 'name' field. Cannot update: "
    ensures start[0] == 'T'
    ensures start + rest == "Tenant admins can only update the 'name' field. Cannot update: "
  {
  }

  // ---------------------------------------------------------------- GET /tenants

  /** Lists all tenants: the gate refuses everyone but super admins, then the query checks,
      then the model, whose database client may still refuse a composite search or the
      computed `skip`. */
  function ListAllTenantsRoute(db: Db, user: Claims, page: Parsed, limit: Parsed, status: Option<QueryValue>,
                               plan: Option<QueryValue>, search: Option<QueryValue>, order: seq<Id>,
                               contains: (string, string) -> bool, refusal: string): (r: Result<TenantsModel.TenantPage>)
    reads db
    requires Enumerates(order, db.tenants.Keys)
    ensures user.role != SuperAdmin ==> r == Err(Insufficient)
    ensures (user.role == SuperAdmin && TenantsController.ValidateListTenants(page, limit, status, plan, search).Err?)
            ==> r == Err(TenantsController.ValidateListTenants(page, limit, status, plan, search).error)
    ensures (user.role == SuperAdmin && TenantsController.ValidateListTenants(page, limit, status, plan, search).Ok?
             && (!ClientTakes(search) || SkipOf(ParsedArg(page), ParsedArg(limit), 10).None?)) ==>
      r == Err(ErrorHandler.QueryRefused(refusal))
    ensures r.Ok? <==> (user.role == SuperAdmin && TenantsController.ValidateListTenants(page, limit, status, plan, search).Ok?
                        && ClientTakes(search) && SkipOf(ParsedArg(page), ParsedArg(limit), 10).Some?)
    ensures r.Ok? ==>
      r == TenantsModel.ListAllTenants(db, user, TenantsController.ValidateListTenants(page, limit, status, plan, search).value,
                                       order, contains, refusal)
  {
    GatesAdmit(user);
    if RequireRole(SuperAdminsOnly, Some(user)).Reject? then Err(RequireRole(SuperAdminsOnly, Some(user)).error)
    else
      var checked := TenantsController.ValidateListTenants(page, limit, status, plan, search);
      if checked.Err? then Err(checked.error)
      else TenantsModel.ListAllTenants(db, user, checked.value, order, contains, refusal)
  }

  /** Behind its gate, the model's own refusal of callers who are not super admins is never
      what a client sees: every refusal is the gate's 403, a 400 from the query checks, or the
      database client's refusal of a composite search or of the computed `skip`. */
  lemma ListerRefusalUnreachable(db: Db, user: Claims, page: Parsed, limit: Parsed, status: Option<QueryValue>,
                                 plan: Option<QueryValue>, search: Option<QueryValue>, order: seq<Id>,
                                 contains: (string, string) -> bool, refusal: string)
    requires Enumerates(order, db.tenants.Keys)
    ensures ListAllTenantsRoute(db, user, page, limit, status, plan, search, order, contains, refusal)
            != Err(TenantsModel.NotTenantLister)
    ensures var r := ListAllTenantsRoute(db, user, page, limit, status, plan, search, order, contains, refusal);
      r.Err? ==> r.error.status in {400, 403} || r.error == ErrorHandler.QueryRefused(refusal)
  {
    var r := ListAllTenantsRoute(db, user, page, limit, status, plan, search, order, contains, refusal);
    var checked := TenantsController.ValidateListTenants(page, limit, status, plan, search);
    if user.role != SuperAdmin {
      assert r == Err(Insufficient);
      assert TenantsModel.NotTenantLister != Insufficient;
    } else if checked.Err? {
      assert r == Err(checked.error) && checked.error.status == 400;
    } else if !ClientTakes(search) || SkipOf(ParsedArg(page), ParsedArg(limit), 10).None? {
      assert r == Err(ErrorHandler.QueryRefused(refusal));
      assert TenantsModel.NotTenantLister != ErrorHandler.QueryRefused(refusal);
    } else {
      assert r.Ok?;
    }
  }
}
