/** The tenant operations: read one tenant, update a tenant through a role-dependent field mask
    (a super admin may set name, status, plan and limits of any tenant; a tenant admin only the
    name of their own), and list all tenants with their current user and project counts. */
module TenantsModel {
  import opened Types
  import opened Store
  import opened Listing
  import ErrorHandler

  const TenantNotFound := NotFound("Tenant not found")
  const ViewElsewhere := Forbidden("Access denied. You can only view your own tenant")
  const UpdateElsewhere := Forbidden("Access denied. You can only update your own tenant")
  const NotTenantUpdater := Forbidden("Access denied. Only tenant admins and super admins can update tenants")
  const NothingToUpdate := BadRequest("No valid fields to update")
  const NotTenantLister := Forbidden("Access denied. Only super admins can list all tenants")

  datatype TenantView = TenantView(id: Id, name: string, subdomain: string, status: TenantStatus,
                                   subscriptionPlan: Plan, maxUsers: int, maxProjects: int)

  function ViewOf(id: Id, t: Tenant): TenantView
  {
    TenantView(id, t.name, t.subdomain, t.status, t.subscriptionPlan, t.maxUsers, t.maxProjects)
  }

  // ---------------------------------------------------------------- getTenantById

  /** `getTenantById(tenantId, requestingUser)`: existence first, then the tenant check, which a
      super admin passes. */
  function GetTenantById(db: Db, tenantId: Id, requester: Claims): (r: Result<TenantView>)
    reads db
    ensures tenantId !in db.tenants ==> r == Err(TenantNotFound)
    ensures tenantId in db.tenants && requester.role != SuperAdmin && requester.tenantId != Some(tenantId) ==>
      r == Err(ViewElsewhere)
    ensures r.Ok? <==> tenantId in db.tenants && (requester.role == SuperAdmin || requester.tenantId == Some(tenantId))
    ensures r.Ok? ==> r.value.id == tenantId && r.value.subdomain == db.tenants[tenantId].subdomain
    ensures r.Ok? ==> r.value == ViewOf(tenantId, db.tenants[tenantId])
  {
    if tenantId !in db.tenants then Err(TenantNotFound)
    else if requester.role != SuperAdmin && requester.tenantId != Some(tenantId) then Err(ViewElsewhere)
    else Ok(ViewOf(tenantId, db.tenants[tenantId]))
  }

  // ---------------------------------------------------------------- updateTenant

  /** An update body after the controller's checks: its keys in order, and the five fields the
      model may write, each present exactly when its key is. */
  datatype TenantUpdates = TenantUpdates(keys: seq<string>, name: Option<string>, status: Option<TenantStatus>,
                                         subscriptionPlan: Option<Plan>, maxUsers: Option<int>,
                                         maxProjects: Option<int>)

  predicate WellFormed(u: TenantUpdates)
  {
    && Distinct(u.keys)
    && (u.name.Some? <==> "name" in u.keys)
    && (u.status.Some? <==> "status" in u.keys)
    && (u.subscriptionPlan.Some? <==> "subscriptionPlan" in u.keys)
    && (u.maxUsers.Some? <==> "maxUsers" in u.keys)
    && (u.maxProjects.Some? <==> "maxProjects" in u.keys)
  }

  /** `allowedUpdates`: the fields that will be written. */
  datatype TenantChange = TenantChange(name: Option<string>, status: Option<TenantStatus>,
                                       subscriptionPlan: Option<Plan>, maxUsers: Option<int>,
                                       maxProjects: Option<int>)

  predicate ChangeEmpty(c: TenantChange)
  {
    c.name.None? && c.status.None? && c.subscriptionPlan.None? && c.maxUsers.None? && c.maxProjects.None?
  }

  /** The keys other than `name`: what a tenant admin may not send. */
  function Restricted(keys: seq<string>): (r: seq<string>)
    ensures forall k :: k in r <==> k in keys && k != "name"
  {
    KeysOtherThan(keys, "name")
  }

  function AdminRestricted(restricted: seq<string>): ApiError
  {
    Forbidden("Tenant admins can only update the 'name' field. Cannot update: " + Join(restricted, ", "))
  }

  /** The role's mask: all five fields for a super admin, the name alone for anyone else. Keys
      outside the super admin's mask (the subdomain, say) are dropped without complaint. */
  function Change(role: Role, updates: TenantUpdates): (c: TenantChange)
    ensures c.name == updates.name
    ensures role != SuperAdmin ==> c == TenantChange(updates.name, None, None, None, None)
  {
    if role == SuperAdmin then
      TenantChange(updates.name, updates.status, updates.subscriptionPlan, updates.maxUsers, updates.maxProjects)
    else TenantChange(updates.name, None, None, None, None)
  }

  /** The tenant after `allowedUpdates` is written; the subdomain is never among them. */
  function Applied(t: Tenant, c: TenantChange): (r: Tenant)
    ensures r.subdomain == t.subdomain
    ensures r.name == (if c.name.Some? then c.name.value else t.name)
    ensures r.status == (if c.status.Some? then c.status.value else t.status)
    ensures r.subscriptionPlan == (if c.subscriptionPlan.Some? then c.subscriptionPlan.value else t.subscriptionPlan)
    ensures r.maxUsers == (if c.maxUsers.Some? then c.maxUsers.value else t.maxUsers)
    ensures r.maxProjects == (if c.maxProjects.Some? then c.maxProjects.value else t.maxProjects)
  {
    t.(name := if c.name.Some? then c.name.value else t.name,
       status := if c.status.Some? then c.status.value else t.status,
       subscriptionPlan := if c.subscriptionPlan.Some? then c.subscriptionPlan.value else t.subscriptionPlan,
       maxUsers := if c.maxUsers.Some? then c.maxUsers.value else t.maxUsers,
       maxProjects := if c.maxProjects.Some? then c.maxProjects.value else t.maxProjects)
  }

  /** Whether the caller's role lets this body through the mask: a super admin always; a tenant
      admin of this tenant with no key other than `name`. */
  predicate Permitted(requester: Claims, tenantId: Id, updates: TenantUpdates)
  {
    || requester.role == SuperAdmin
    || (requester.role == TenantAdmin && requester.tenantId == Some(tenantId) && Restricted(updates.keys) == [])
  }

  /** Whatever a tenant admin sends, only the name can change: the plan, the status and the limits
      that bound their own tenant stay as they were. */
  lemma TenantAdminOnlyRenames(t: Tenant, role: Role, updates: TenantUpdates)
    requires role != SuperAdmin
    ensures Applied(t, Change(role, updates)).(name := t.name) == t
  {
  }

  /** For a well-formed body, a tenant admin's update of their own tenant is let through exactly
      when `name` is the only key, and then it always has something to write. */
  lemma {:induction false} TenantAdminPermittedIffOnlyName(requester: Claims, tenantId: Id, updates: TenantUpdates)
    requires requester.role == TenantAdmin && requester.tenantId == Some(tenantId) && WellFormed(updates)
    ensures Permitted(requester, tenantId, updates) <==> updates.keys == [] || updates.keys == ["name"]
    ensures Permitted(requester, tenantId, updates) && updates.keys != [] ==>
      !ChangeEmpty(Change(requester.role, updates))
  {
    var keys := updates.keys;
    if Restricted(keys) == [] && keys != [] {
      assert forall i | 0 <= i < |keys| :: keys[i] == "name" by {
        forall i | 0 <= i < |keys| ensures keys[i] == "name" {
          assert keys[i] in keys;
          assert keys[i] !in Restricted(keys);
        }
      }
      DistinctCard(keys);
      var names := set x | x in keys;
      assert keys[0] in names;
      assert names == {"name"};
      assert keys == ["name"];
    }
    if keys == ["name"] {
      assert keys[1..] == [];
      assert Restricted(keys) == [] + Restricted([]);
    }
  }

  /** A super admin's `allowedUpdates`: every field the updates give. */
  method CopyAll(updates: TenantUpdates) returns (allowed: TenantChange)
    ensures allowed == Change(SuperAdmin, updates)
  {
    allowed := TenantChange(None, None, None, None, None);
    if updates.name.Some? { allowed := allowed.(name := updates.name); }
    if updates.status.Some? { allowed := allowed.(status := updates.status); }
    if updates.subscriptionPlan.Some? { allowed := allowed.(subscriptionPlan := updates.subscriptionPlan); }
    if updates.maxUsers.Some? { allowed := allowed.(maxUsers := updates.maxUsers); }
    if updates.maxProjects.Some? { allowed := allowed.(maxProjects := updates.maxProjects); }
  }

  /** `updateTenant(tenantId, updates, requestingUser)`. */
  method UpdateTenant(db: Db, tenantId: Id, updates: TenantUpdates, requester: Claims) returns (r: Result<TenantView>)
    requires db.Valid()
    modifies db
    ensures db.Valid()
    ensures db.users == old(db.users) && db.projects == old(db.projects) && db.tasks == old(db.tasks)
    ensures db.tenants.Keys == old(db.tenants).Keys
    ensures tenantId !in old(db.tenants) ==> r == Err(TenantNotFound)
    ensures (tenantId in old(db.tenants) && requester.role == TenantAdmin && requester.tenantId != Some(tenantId)) ==>
      r == Err(UpdateElsewhere)
    ensures (tenantId in old(db.tenants) && requester.role == TenantAdmin && requester.tenantId == Some(tenantId)
             && Restricted(updates.keys) != []) ==>
      r == Err(AdminRestricted(Restricted(updates.keys)))
    ensures tenantId in old(db.tenants) && requester.role == PlainUser ==> r == Err(NotTenantUpdater)
    ensures (tenantId in old(db.tenants) && Permitted(requester, tenantId, updates)
             && ChangeEmpty(Change(requester.role, updates))) ==>
      r == Err(NothingToUpdate)
    ensures r.Ok? <==> (tenantId in old(db.tenants) && Permitted(requester, tenantId, updates)
                        && !ChangeEmpty(Change(requester.role, updates)))
    ensures r.Err? ==> db.tenants == old(db.tenants)
    ensures r.Ok? ==>
      var t := Applied(old(db.tenants)[tenantId], Change(requester.role, updates));
      db.tenants == old(db.tenants)[tenantId := t] && r.value == ViewOf(tenantId, t)
      && t.subdomain == old(db.tenants)[tenantId].subdomain
  {
    if tenantId !in db.tenants {
      return Err(TenantNotFound);
    }
    var tenant := db.tenants[tenantId];
    var allowed := TenantChange(None, None, None, None, None);
    if requester.role == SuperAdmin {
      allowed := CopyAll(updates);
    } else if requester.role == TenantAdmin {
      if requester.tenantId != Some(tenantId) {
        return Err(UpdateElsewhere);
      }
      if updates.name.Some? {
        allowed := allowed.(name := updates.name);
      }
      var restricted := Restricted(updates.keys);
      if |restricted| > 0 {
        return Err(AdminRestricted(restricted));
      }
    } else {
      return Err(NotTenantUpdater);
    }
    if ChangeEmpty(allowed) {
      return Err(NothingToUpdate);
    }
    assert allowed == Change(requester.role, updates);
    var updated := Applied(tenant, allowed);
    ChangeTenantConsistent(db.tenants, db.users, db.projects, db.tasks, tenantId, updated);
    db.tenants := db.tenants[tenantId := updated];
    return Ok(ViewOf(tenantId, updated));
  }

  // ---------------------------------------------------------------- listAllTenants

  /** The list options after validation: filters that are absent are None. */
  datatype TenantQuery = TenantQuery(page: Option<Arg>, limit: Option<Arg>, status: Option<TenantStatus>,
                                     subscriptionPlan: Option<Plan>, search: Option<QueryValue>)

  datatype TenantItem = TenantItem(id: Id, name: string, subdomain: string, status: TenantStatus,
                                   subscriptionPlan: Plan, maxUsers: int, maxProjects: int,
                                   currentUsers: nat, currentProjects: nat)

  datatype Pagination = Pagination(page: int, limit: int, total: nat, totalPages: nat)

  datatype TenantPage = TenantPage(tenants: seq<TenantItem>, pagination: Pagination)

  /** The `where` clause: each filter that is given, all of them together; a non-empty search
      is found in the name or in the subdomain. A composite search never gets here: the client
      refuses it first. */
  predicate TenantMatches(t: Tenant, q: TenantQuery, contains: (string, string) -> bool)
  {
    && (q.status.Some? ==> t.status == q.status.value)
    && (q.subscriptionPlan.Some? ==> t.subscriptionPlan == q.subscriptionPlan.value)
    && (FilterText(q.search).Some? ==>
          contains(t.name, FilterText(q.search).value) || contains(t.subdomain, FilterText(q.search).value))
  }

  function MatchingIds(tenants: map<Id, Tenant>, q: TenantQuery, contains: (string, string) -> bool): (ids: set<Id>)
    ensures forall k :: k in ids <==> k in tenants && TenantMatches(tenants[k], q, contains)
  {
    set k | k in tenants && TenantMatches(tenants[k], q, contains)
  }

  function MatchingTenants(tenants: map<Id, Tenant>, order: seq<Id>, q: TenantQuery,
                           contains: (string, string) -> bool): (rows: seq<Id>)
    requires Enumerates(order, tenants.Keys)
    ensures forall k :: k in rows <==> k in MatchingIds(tenants, q, contains)
    ensures Distinct(rows) && |rows| == |MatchingIds(tenants, q, contains)|
  {
    var filters := q.(page := None, limit := None);
    var keep := k => k in tenants && TenantMatches(tenants[k], filters, contains);
    FilterCount(order, tenants.Keys, keep);
    assert Kept(tenants.Keys, keep) == MatchingIds(tenants, q, contains);
    Filter(order, keep)
  }

  /** A listed tenant with the database's counts of its users and projects. */
  function ItemOf(users: map<Id, User>, projects: map<Id, Project>, id: Id, t: Tenant): TenantItem
  {
    TenantItem(id, t.name, t.subdomain, t.status, t.subscriptionPlan, t.maxUsers, t.maxProjects,
               UserCount(users, id), ProjectCount(projects, id))
  }

  function Items(tenants: map<Id, Tenant>, users: map<Id, User>, projects: map<Id, Project>, ids: seq<Id>): (r: seq<TenantItem>)
    requires forall k | k in ids :: k in tenants
    ensures |r| == |ids| && forall i | 0 <= i < |ids| :: r[i] == ItemOf(users, projects, ids[i], tenants[ids[i]])
  {
    if |ids| == 0 then [] else [ItemOf(users, projects, ids[0], tenants[ids[0]])] + Items(tenants, users, projects, ids[1..])
  }

  /** `listAllTenants(requestingUser, options)`. `order` is the tenant table newest first;
      `refusal` is the database client's message when it refuses the query: a composite search
      in the `where` clause of `count`, or the computed `skip` of `findMany`. */
  function ListAllTenants(db: Db, requester: Claims, q: TenantQuery, order: seq<Id>,
                          contains: (string, string) -> bool, refusal: string): (r: Result<TenantPage>)
    reads db
    requires Enumerates(order, db.tenants.Keys) && PagingOk(q.page, q.limit)
    ensures requester.role != SuperAdmin ==> r == Err(NotTenantLister)
    ensures requester.role == SuperAdmin && !ClientTakes(q.search) ==> r == Err(ErrorHandler.QueryRefused(refusal))
    ensures requester.role == SuperAdmin && SkipOf(q.page, q.limit, 10).None? ==>
      r == Err(ErrorHandler.QueryRefused(refusal))
    ensures r.Ok? <==> requester.role == SuperAdmin && ClientTakes(q.search) && SkipOf(q.page, q.limit, 10).Some?
    ensures r.Ok? ==>
      forall item | item in r.value.tenants ::
        && item.id in db.tenants && TenantMatches(db.tenants[item.id], q, contains)
        && item.currentUsers == UserCount(db.users, item.id)
        && item.currentProjects == ProjectCount(db.projects, item.id)
    ensures r.Ok? ==>
      var p := r.value.pagination;
      && p.total == |MatchingIds(db.tenants, q, contains)|
      && |r.value.tenants| <= p.limit == LimitOr(q.limit, 10)
      && p.page == PageOr(q.page) && p.totalPages == TotalPages(p.total, p.limit)
    ensures r.Ok? ==>
      r.value.tenants == Items(db.tenants, db.users, db.projects,
        Page(MatchingTenants(db.tenants, order, q, contains), SkipOf(q.page, q.limit, 10).value, LimitOr(q.limit, 10)))
  {
    if requester.role != SuperAdmin then Err(NotTenantLister)
    else if !ClientTakes(q.search) || SkipOf(q.page, q.limit, 10).None? then Err(ErrorHandler.QueryRefused(refusal))
    else
      var page, limit := PageOr(q.page), LimitOr(q.limit, 10);
      var rows := MatchingTenants(db.tenants, order, q, contains);
      var shown := Page(rows, SkipOf(q.page, q.limit, 10).value, limit);
      var items := Items(db.tenants, db.users, db.projects, shown);
      assert forall i | 0 <= i < |items| :: items[i].id == shown[i] && shown[i] in rows;
      Ok(TenantPage(items, Pagination(page, limit, |rows|, TotalPages(|rows|, limit))))
  }

  /** Every tenant the filters select is listed: with a limit written as a plain integer, the
      row at `(page - 1) * limit + j`, newest first, is entry `j` of the listing of page `page`,
      and that listing counts at least `page` pages. */
  lemma TenantsListed(db: Db, requester: Claims, q: TenantQuery, order: seq<Id>,
                      contains: (string, string) -> bool, refusal: string, page: int, j: nat)
    requires Enumerates(order, db.tenants.Keys) && PagingOk(q.page, q.limit) && Plain(q.limit)
    requires requester.role == SuperAdmin && ClientTakes(q.search)
    requires page >= 1 && j < LimitOr(q.limit, 10)
    requires Skip(page, LimitOr(q.limit, 10)) + j < |MatchingIds(db.tenants, q, contains)|
    ensures var rows := MatchingTenants(db.tenants, order, q, contains);
      var r := ListAllTenants(db, requester, q.(page := Some(Arg(page, Some(page as real)))), order, contains, refusal);
      && r.Ok? && page <= r.value.pagination.totalPages
      && j < |r.value.tenants| && r.value.tenants[j].id == rows[Skip(page, LimitOr(q.limit, 10)) + j]
  {
    var limit := LimitOr(q.limit, 10);
    var rows := MatchingTenants(db.tenants, order, q, contains);
    SlotOnPage(rows, limit, page, j);
    ListedOnPage(db, requester, q, order, contains, refusal, page, j);
  }

  /** Entry `j` of the listing of page `page` is entry `j` of that page of the matching rows. */
  lemma ListedOnPage(db: Db, requester: Claims, q: TenantQuery, order: seq<Id>,
                     contains: (string, string) -> bool, refusal: string, page: int, j: nat)
    requires Enumerates(order, db.tenants.Keys) && PagingOk(q.page, q.limit) && Plain(q.limit)
    requires requester.role == SuperAdmin && ClientTakes(q.search)
    requires page >= 1
    requires j < |Page(MatchingTenants(db.tenants, order, q, contains),
                       Skip(page, LimitOr(q.limit, 10)), LimitOr(q.limit, 10))|
    ensures var limit := LimitOr(q.limit, 10);
      var rows := MatchingTenants(db.tenants, order, q, contains);
      var r := ListAllTenants(db, requester, q.(page := Some(Arg(page, Some(page as real)))), order, contains, refusal);
      && r.Ok? && r.value.pagination.totalPages == TotalPages(|rows|, limit)
      && j < |r.value.tenants| && r.value.tenants[j].id == Page(rows, Skip(page, limit), limit)[j]
  {
    var q' := q.(page := Some(Arg(page, Some(page as real))));
    PlainSkip(q'.page, q'.limit, 10);
    assert q.(page := None, limit := None) == q'.(page := None, limit := None);
  }

  /** While every tenant is within its caps, every listed tenant reports current counts within
      its limits. */
  lemma ListedWithinCaps(db: Db, requester: Claims, q: TenantQuery, order: seq<Id>,
                         contains: (string, string) -> bool, refusal: string)
    requires Enumerates(order, db.tenants.Keys) && PagingOk(q.page, q.limit)
    requires WithinUserCap(db.tenants, db.users) && WithinProjectCap(db.tenants, db.projects)
    ensures var r := ListAllTenants(db, requester, q, order, contains, refusal);
      r.Ok? ==> forall item | item in r.value.tenants ::
        item.currentUsers <= item.maxUsers && item.currentProjects <= item.maxProjects
  {
    var r := ListAllTenants(db, requester, q, order, contains, refusal);
    if r.Ok? {
      forall item | item in r.value.tenants
        ensures item.currentUsers <= item.maxUsers && item.currentProjects <= item.maxProjects
      {
        var i :| 0 <= i < |r.value.tenants| && r.value.tenants[i] == item;
        assert item.id in db.tenants;
      }
    }
  }
}
