/** The user operations of a tenant: add a user (tenant admins only, bounded by the plan's
    `maxUsers`, e-mails unique within the tenant), list a tenant's users, update a user (a
    role-dependent set of fields), and delete a user after clearing its task assignments. */
module UsersModel {
  import opened Types
  import opened Store
  import opened Listing
  import ErrorHandler

  const NotUserAdder := Forbidden("Access denied. Only tenant admins can add users")
  const AddElsewhere := Forbidden("Access denied. You can only add users to your own tenant")
  const TenantNotFound := NotFound("Tenant not found")
  const UserLimit := Forbidden("Subscription limit reached. Cannot add more users")
  const EmailTaken := Conflict("Email already exists in this tenant")
  const ListElsewhere := Forbidden("Access denied. You can only view users from your own tenant")
  const UserNotFound := NotFound("User not found")
  const UpdateElsewhere := Forbidden("Access denied. You can only update users from your own tenant")
  const NotUserUpdater := Forbidden("Access denied. You cannot update other users")
  const NothingToUpdate := BadRequest("No valid fields to update")
  const NotUserDeleter := Forbidden("Access denied. Only tenant admins can delete users")
  const SelfDelete := Forbidden("Cannot delete yourself")
  const DeleteElsewhere := Forbidden("Access denied. You can only delete users from your own tenant")
  const UserDeleted := "User deleted successfully"

  /** The public fields of a user: never the password hash. */
  datatype UserView = UserView(id: Id, email: string, fullName: string, role: Role, tenantId: Option<Id>, isActive: bool)

  function ViewOf(id: Id, u: User): UserView
  {
    UserView(id, u.email, u.fullName, u.role, u.tenantId, u.isActive)
  }

  // ---------------------------------------------------------------- addUser

  /** What the controller passes to `addUser`. */
  datatype NewUser = NewUser(email: string, password: string, fullName: string, role: Option<Role>)

  /** The row `addUser` inserts: active, of the target tenant, with the hashed password and the
      given role or `user`. */
  function NewRow(tenantId: Id, data: NewUser): (u: User)
    ensures u.tenantId == Some(tenantId) && u.email == data.email && u.fullName == data.fullName
    ensures u.isActive && ComparePassword(data.password, u.passwordHash)
    ensures u.role == if data.role.Some? then data.role.value else PlainUser
  {
    User(Some(tenantId), data.email, HashPassword(data.password), data.fullName,
         if data.role.Some? then data.role.value else PlainUser, true)
  }

  /** `addUser(tenantId, userData, requestingUser)`; `id` is the identifier the database
      generates for the new row. */
  method AddUser(db: Db, tenantId: Id, data: NewUser, requester: Claims, id: Id) returns (r: Result<UserView>)
    requires db.Valid() && id !in db.users
    modifies db
    ensures db.Valid()
    ensures db.tenants == old(db.tenants) && db.projects == old(db.projects) && db.tasks == old(db.tasks)
    ensures requester.role != TenantAdmin ==> r == Err(NotUserAdder)
    ensures requester.role == TenantAdmin && requester.tenantId != Some(tenantId) ==> r == Err(AddElsewhere)
    ensures (requester.role == TenantAdmin && requester.tenantId == Some(tenantId) && tenantId !in db.tenants) ==>
      r == Err(TenantNotFound)
    ensures (requester.role == TenantAdmin && requester.tenantId == Some(tenantId) && tenantId in db.tenants
             && UserCount(old(db.users), tenantId) >= db.tenants[tenantId].maxUsers) ==>
      r == Err(UserLimit)
    ensures (requester.role == TenantAdmin && requester.tenantId == Some(tenantId) && tenantId in db.tenants
             && UserCount(old(db.users), tenantId) < db.tenants[tenantId].maxUsers
             && !EmailFree(old(db.users), Some(tenantId), data.email)) ==>
      r == Err(EmailTaken)
    ensures r.Ok? <==> (requester.role == TenantAdmin && requester.tenantId == Some(tenantId) && tenantId in db.tenants
                        && UserCount(old(db.users), tenantId) < db.tenants[tenantId].maxUsers
                        && EmailFree(old(db.users), Some(tenantId), data.email))
    ensures r.Err? ==> db.users == old(db.users)
    ensures r.Ok? ==>
      var row := NewRow(tenantId, data);
      db.users == old(db.users)[id := row] && r.value == ViewOf(id, row)
    ensures WithinUserCap(db.tenants, old(db.users)) ==> WithinUserCap(db.tenants, db.users)
  {
    if requester.role != TenantAdmin {
      return Err(NotUserAdder);
    }
    if requester.tenantId != Some(tenantId) {
      return Err(AddElsewhere);
    }
    if tenantId !in db.tenants {
      return Err(TenantNotFound);
    }
    var tenant := db.tenants[tenantId];
    if UserCount(db.users, tenantId) >= tenant.maxUsers {
      return Err(UserLimit);
    }
    if !EmailFree(db.users, Some(tenantId), data.email) {
      return Err(EmailTaken);
    }
    var row := NewRow(tenantId, data);
    AddUserConsistent(db.tenants, db.users, db.projects, db.tasks, id, row);
    if WithinUserCap(db.tenants, db.users) {
      InsertKeepsUserCap(db.tenants, db.users, id, row);
    }
    db.users := db.users[id := row];
    return Ok(ViewOf(id, row));
  }

  // ---------------------------------------------------------------- listUsers

  /** The list options after validation: filters that are absent are None. */
  datatype UserQuery = UserQuery(search: Option<QueryValue>, role: Option<Role>, page: Option<Arg>, limit: Option<Arg>)

  datatype UserItem = UserItem(id: Id, email: string, fullName: string, role: Role, isActive: bool)

  datatype UserPage = UserPage(users: seq<UserItem>, total: nat, currentPage: int, totalPages: nat, limit: int)

  /** The `where` clause: the tenant, the role if given, and a search (if non-empty) found in the
      full name or in the e-mail. A composite search never gets here: the client refuses it first. */
  predicate UserMatches(u: User, tenantId: Id, q: UserQuery, contains: (string, string) -> bool)
  {
    && u.tenantId == Some(tenantId)
    && (q.role.Some? ==> u.role == q.role.value)
    && (FilterText(q.search).Some? ==>
          contains(u.fullName, FilterText(q.search).value) || contains(u.email, FilterText(q.search).value))
  }

  function MatchingIds(users: map<Id, User>, tenantId: Id, q: UserQuery, contains: (string, string) -> bool): (ids: set<Id>)
    ensures forall k :: k in ids <==> k in users && UserMatches(users[k], tenantId, q, contains)
  {
    set k | k in users && UserMatches(users[k], tenantId, q, contains)
  }

  function MatchingUsers(users: map<Id, User>, order: seq<Id>, tenantId: Id, q: UserQuery,
                         contains: (string, string) -> bool): (rows: seq<Id>)
    requires Enumerates(order, users.Keys)
    ensures forall k :: k in rows <==> k in MatchingIds(users, tenantId, q, contains)
    ensures Distinct(rows) && |rows| == |MatchingIds(users, tenantId, q, contains)|
  {
    var filters := q.(page := None, limit := None);
    var keep := k => k in users && UserMatches(users[k], tenantId, filters, contains);
    FilterCount(order, users.Keys, keep);
    assert Kept(users.Keys, keep) == MatchingIds(users, tenantId, q, contains);
    Filter(order, keep)
  }

  function ItemOf(id: Id, u: User): UserItem
  {
    UserItem(id, u.email, u.fullName, u.role, u.isActive)
  }

  function Items(users: map<Id, User>, ids: seq<Id>): (r: seq<UserItem>)
    requires forall k | k in ids :: k in users
    ensures |r| == |ids| && forall i | 0 <= i < |ids| :: r[i] == ItemOf(ids[i], users[ids[i]])
  {
    if |ids| == 0 then [] else [ItemOf(ids[0], users[ids[0]])] + Items(users, ids[1..])
  }

  /** `listUsers(tenantId, requestingUser, options)`. `order` is the user table newest first. A
      super admin may list any tenant; a tenant that does not exist lists no users. `refusal` is
      the database client's message when it refuses the query: a composite search in the
      `where` clause of `count`, or the computed `skip` of `findMany`. */
  function ListUsers(db: Db, tenantId: Id, requester: Claims, q: UserQuery, order: seq<Id>,
                     contains: (string, string) -> bool, refusal: string): (r: Result<UserPage>)
    reads db
    requires Enumerates(order, db.users.Keys) && PagingOk(q.page, q.limit)
    ensures requester.role != SuperAdmin && requester.tenantId != Some(tenantId) ==> r == Err(ListElsewhere)
    ensures ((requester.role == SuperAdmin || requester.tenantId == Some(tenantId))
             && !ClientTakes(q.search)) ==>
      r == Err(ErrorHandler.QueryRefused(refusal))
    ensures ((requester.role == SuperAdmin || requester.tenantId == Some(tenantId))
             && SkipOf(q.page, q.limit, 50).None?) ==>
      r == Err(ErrorHandler.QueryRefused(refusal))
    ensures r.Ok? <==> (requester.role == SuperAdmin || requester.tenantId == Some(tenantId))
                       && ClientTakes(q.search) && SkipOf(q.page, q.limit, 50).Some?
    ensures r.Ok? ==>
      forall item | item in r.value.users ::
        item.id in db.users && db.users[item.id].tenantId == Some(tenantId)
        && UserMatches(db.users[item.id], tenantId, q, contains)
    ensures r.Ok? ==> r.value.total == |MatchingIds(db.users, tenantId, q, contains)|
    ensures r.Ok? ==> |r.value.users| <= r.value.limit == LimitOr(q.limit, 50)
    ensures r.Ok? ==>
      r.value.users == Items(db.users, Page(MatchingUsers(db.users, order, tenantId, q, contains),
                                            SkipOf(q.page, q.limit, 50).value, LimitOr(q.limit, 50)))
    ensures r.Ok? ==>
      r.value.currentPage == PageOr(q.page) && r.value.totalPages == TotalPages(r.value.total, r.value.limit)
  {
    if requester.role != SuperAdmin && requester.tenantId != Some(tenantId) then Err(ListElsewhere)
    else if !ClientTakes(q.search) || SkipOf(q.page, q.limit, 50).None? then Err(ErrorHandler.QueryRefused(refusal))
    else
      var page, limit := PageOr(q.page), LimitOr(q.limit, 50);
      var rows := MatchingUsers(db.users, order, tenantId, q, contains);
      var shown := Page(rows, SkipOf(q.page, q.limit, 50).value, limit);
      var items := Items(db.users, shown);
      assert forall i | 0 <= i < |items| :: items[i].id == shown[i] && shown[i] in rows;
      Ok(UserPage(items, |rows|, page, TotalPages(|rows|, limit), limit))
  }

  /** Every user the filters select is listed: with a limit written as a plain integer, the row
      at `(page - 1) * limit + j`, newest first, is entry `j` of the listing of page `page`, and
      that listing counts at least `page` pages. */
  lemma UsersListed(db: Db, tenantId: Id, requester: Claims, q: UserQuery, order: seq<Id>,
                    contains: (string, string) -> bool, refusal: string, page: int, j: nat)
    requires Enumerates(order, db.users.Keys) && PagingOk(q.page, q.limit) && Plain(q.limit)
    requires requester.role == SuperAdmin || requester.tenantId == Some(tenantId)
    requires ClientTakes(q.search)
    requires page >= 1 && j < LimitOr(q.limit, 50)
    requires Skip(page, LimitOr(q.limit, 50)) + j < |MatchingIds(db.users, tenantId, q, contains)|
    ensures var rows := MatchingUsers(db.users, order, tenantId, q, contains);
      var r := ListUsers(db, tenantId, requester, q.(page := Some(Arg(page, Some(page as real)))), order, contains, refusal);
      && r.Ok? && page <= r.value.totalPages
      && j < |r.value.users| && r.value.users[j].id == rows[Skip(page, LimitOr(q.limit, 50)) + j]
  {
    var limit := LimitOr(q.limit, 50);
    var rows := MatchingUsers(db.users, order, tenantId, q, contains);
    SlotOnPage(rows, limit, page, j);
    ListedOnPage(db, tenantId, requester, q, order, contains, refusal, page, j);
  }

  /** Entry `j` of the listing of page `page` is entry `j` of that page of the matching rows. */
  lemma ListedOnPage(db: Db, tenantId: Id, requester: Claims, q: UserQuery, order: seq<Id>,
                     contains: (string, string) -> bool, refusal: string, page: int, j: nat)
    requires Enumerates(order, db.users.Keys) && PagingOk(q.page, q.limit) && Plain(q.limit)
    requires requester.role == SuperAdmin || requester.tenantId == Some(tenantId)
    requires ClientTakes(q.search)
    requires page >= 1
    requires j < |Page(MatchingUsers(db.users, order, tenantId, q, contains),
                       Skip(page, LimitOr(q.limit, 50)), LimitOr(q.limit, 50))|
    ensures var limit := LimitOr(q.limit, 50);
      var rows := MatchingUsers(db.users, order, tenantId, q, contains);
      var r := ListUsers(db, tenantId, requester, q.(page := Some(Arg(page, Some(page as real)))), order, contains, refusal);
      && r.Ok? && r.value.totalPages == TotalPages(|rows|, limit)
      && j < |r.value.users| && r.value.users[j].id == Page(rows, Skip(page, limit), limit)[j]
  {
    var q' := q.(page := Some(Arg(page, Some(page as real))));
    PlainSkip(q'.page, q'.limit, 50);
    assert q.(page := None, limit := None) == q'.(page := None, limit := None);
  }

  // ---------------------------------------------------------------- updateUser

  /** An update body after the controller's checks: its keys in order, and the three fields the
      model may write, each present exactly when its key is. */
  datatype UserUpdates = UserUpdates(keys: seq<string>, fullName: Option<string>, role: Option<Role>,
                                     isActive: Option<bool>)

  predicate WellFormed(u: UserUpdates)
  {
    && Distinct(u.keys)
    && (u.fullName.Some? <==> "fullName" in u.keys)
    && (u.role.Some? <==> "role" in u.keys)
    && (u.isActive.Some? <==> "isActive" in u.keys)
  }

  /** `allowedUpdates`: the fields that will be written. */
  datatype UserChange = UserChange(fullName: Option<string>, role: Option<Role>, isActive: Option<bool>)

  predicate ChangeEmpty(c: UserChange)
  {
    c.fullName.None? && c.role.None? && c.isActive.None?
  }

  /** The keys other than `fullName`: what a user updating themselves may not send. */
  function Restricted(keys: seq<string>): (r: seq<string>)
    ensures forall k :: k in r <==> k in keys && k != "fullName"
  {
    KeysOtherThan(keys, "fullName")
  }

  function SelfRestricted(restricted: seq<string>): ApiError
  {
    Forbidden("Users can only update their own 'fullName'. Cannot update: " + Join(restricted, ", "))
  }

  predicate IsAdmin(requester: Claims)
  {
    requester.role == TenantAdmin || requester.role == SuperAdmin
  }

  /** The caller fails the tenant check for this user. */
  predicate OutsideUserTenant(requester: Claims, u: User)
  {
    requester.role != SuperAdmin && requester.tenantId != u.tenantId
  }

  /** Whether the caller may update user `userId` with these keys: themselves with no key other
      than `fullName` (checked first, whatever their role), or someone else as an admin. */
  predicate Permitted(requester: Claims, userId: Id, updates: UserUpdates)
  {
    if requester.userId == userId then Restricted(updates.keys) == [] else IsAdmin(requester)
  }

  /** The fields written: only the name for oneself; name, role and activity for an admin. */
  function Change(requester: Claims, userId: Id, updates: UserUpdates): (c: UserChange)
    ensures requester.userId == userId ==> c.role.None? && c.isActive.None?
    ensures c.fullName == updates.fullName
    ensures requester.userId != userId ==> c.role == updates.role && c.isActive == updates.isActive
  {
    if requester.userId == userId then UserChange(updates.fullName, None, None)
    else UserChange(updates.fullName, updates.role, updates.isActive)
  }

  function Applied(u: User, c: UserChange): (r: User)
    ensures r.tenantId == u.tenantId && r.email == u.email && r.passwordHash == u.passwordHash
    ensures r.fullName == (if c.fullName.Some? then c.fullName.value else u.fullName)
    ensures r.role == (if c.role.Some? then c.role.value else u.role)
    ensures r.isActive == (if c.isActive.Some? then c.isActive.value else u.isActive)
  {
    u.(fullName := if c.fullName.Some? then c.fullName.value else u.fullName,
       role := if c.role.Some? then c.role.value else u.role,
       isActive := if c.isActive.Some? then c.isActive.value else u.isActive)
  }

  /** A user updating themselves can change nothing but their name: not their role, not whether
      they are active. */
  lemma SelfUpdateOnlyRenames(requester: Claims, userId: Id, updates: UserUpdates, u: User)
    requires requester.userId == userId
    ensures Applied(u, Change(requester, userId, updates)).(fullName := u.fullName) == u
  {
  }

  /** For a well-formed body, the self branch is permitted exactly when `fullName` is the only key,
      and then it always has something to write. */
  lemma {:induction false} SelfPermittedIffOnlyName(requester: Claims, userId: Id, updates: UserUpdates)
    requires requester.userId == userId && WellFormed(updates)
    ensures Permitted(requester, userId, updates) <==> updates.keys == [] || updates.keys == ["fullName"]
    ensures Permitted(requester, userId, updates) && updates.keys != [] ==>
      !ChangeEmpty(Change(requester, userId, updates))
  {
    var keys := updates.keys;
    if Restricted(keys) == [] && keys != [] {
      assert forall i | 0 <= i < |keys| :: keys[i] == "fullName" by {
        forall i | 0 <= i < |keys| ensures keys[i] == "fullName" {
          assert keys[i] in keys;
          assert keys[i] !in Restricted(keys);
        }
      }
      DistinctCard(keys);
      var names := set x | x in keys;
      assert keys[0] in names;
      assert names == {"fullName"};
      assert keys == ["fullName"];
    }
    if keys == ["fullName"] {
      assert keys[1..] == [];
      assert Restricted(keys) == [] + Restricted([]);
    }
  }

  datatype UpdatedUser = UpdatedUser(id: Id, email: string, fullName: string, role: Role, isActive: bool)

  /** An admin's `allowedUpdates` for another user: every field the updates give. */
  method AdminChange(requester: Claims, userId: Id, updates: UserUpdates) returns (allowed: UserChange)
    requires requester.userId != userId
    ensures allowed == Change(requester, userId, updates)
  {
    allowed := UserChange(None, None, None);
    if updates.fullName.Some? { allowed := allowed.(fullName := updates.fullName); }
    if updates.role.Some? { allowed := allowed.(role := updates.role); }
    if updates.isActive.Some? { allowed := allowed.(isActive := updates.isActive); }
  }

  /** `updateUser(userId, updates, requestingUser)`. */
  method UpdateUser(db: Db, userId: Id, updates: UserUpdates, requester: Claims) returns (r: Result<UpdatedUser>)
    requires db.Valid()
    modifies db
    ensures db.Valid()
    ensures db.tenants == old(db.tenants) && db.projects == old(db.projects) && db.tasks == old(db.tasks)
    ensures userId !in old(db.users) ==> r == Err(UserNotFound)
    ensures userId in old(db.users) && OutsideUserTenant(requester, old(db.users)[userId]) ==> r == Err(UpdateElsewhere)
    ensures (userId in old(db.users) && !OutsideUserTenant(requester, old(db.users)[userId])
             && requester.userId == userId && Restricted(updates.keys) != []) ==>
      r == Err(SelfRestricted(Restricted(updates.keys)))
    ensures (userId in old(db.users) && !OutsideUserTenant(requester, old(db.users)[userId])
             && requester.userId != userId && !IsAdmin(requester)) ==>
      r == Err(NotUserUpdater)
    ensures (userId in old(db.users) && !OutsideUserTenant(requester, old(db.users)[userId])
             && Permitted(requester, userId, updates) && ChangeEmpty(Change(requester, userId, updates))) ==>
      r == Err(NothingToUpdate)
    ensures r.Ok? <==> (userId in old(db.users) && !OutsideUserTenant(requester, old(db.users)[userId])
                        && Permitted(requester, userId, updates) && !ChangeEmpty(Change(requester, userId, updates)))
    ensures r.Err? ==> db.users == old(db.users)
    ensures r.Ok? ==>
      var u := Applied(old(db.users)[userId], Change(requester, userId, updates));
      db.users == old(db.users)[userId := u] && r.value == UpdatedUser(userId, u.email, u.fullName, u.role, u.isActive)
  {
    if userId !in db.users {
      return Err(UserNotFound);
    }
    var user := db.users[userId];
    if requester.role != SuperAdmin && requester.tenantId != user.tenantId {
      return Err(UpdateElsewhere);
    }
    var allowed := UserChange(None, None, None);
    if requester.userId == userId {
      if updates.fullName.Some? {
        allowed := allowed.(fullName := updates.fullName);
      }
      var restricted := Restricted(updates.keys);
      if |restricted| > 0 {
        return Err(SelfRestricted(restricted));
      }
    } else if requester.role == TenantAdmin || requester.role == SuperAdmin {
      allowed := AdminChange(requester, userId, updates);
    } else {
      return Err(NotUserUpdater);
    }
    if ChangeEmpty(allowed) {
      return Err(NothingToUpdate);
    }
    assert allowed == Change(requester, userId, updates);
    var updated := Applied(user, allowed);
    ChangeUserConsistent(db.tenants, db.users, db.projects, db.tasks, userId, updated);
    db.users := db.users[userId := updated];
    return Ok(UpdatedUser(userId, updated.email, updated.fullName, updated.role, updated.isActive));
  }

  /** An update `UpdateUser` writes that hands the super admin role to another user of a
      tenant: the caller passes the tenant check as an admin and the body sets that role. */
  predicate Promotes(users: map<Id, User>, userId: Id, updates: UserUpdates, requester: Claims)
  {
    && userId in users && users[userId].tenantId.Some?
    && !OutsideUserTenant(requester, users[userId])
    && requester.userId != userId && IsAdmin(requester)
    && updates.role == Some(SuperAdmin)
  }

  /** As written, such an update is permitted, has something to write, and leaves a super admin
      that still belongs to a tenant. */
  lemma PromotionUnscopes(users: map<Id, User>, userId: Id, updates: UserUpdates, requester: Claims)
    requires Promotes(users, userId, updates, requester)
    ensures Permitted(requester, userId, updates) && !ChangeEmpty(Change(requester, userId, updates))
    ensures SuperAdminsUnscoped(users) ==>
              !SuperAdminsUnscoped(users[userId := Applied(users[userId], Change(requester, userId, updates))])
  {
    var u := Applied(users[userId], Change(requester, userId, updates));
    assert u.role == SuperAdmin && u.tenantId.Some?;
    assert userId in users[userId := u];
  }

  const PromotionRefused := Forbidden("Cannot give the super_admin role to a user of a tenant")

  /** `updateUser` with the promotion refused: otherwise it is `UpdateUser`, and it keeps every
      super admin outside the tenants. */
  method UpdateUserScoped(db: Db, userId: Id, updates: UserUpdates, requester: Claims) returns (r: Result<UpdatedUser>)
    requires db.Valid()
    modifies db
    ensures db.Valid()
    ensures db.tenants == old(db.tenants) && db.projects == old(db.projects) && db.tasks == old(db.tasks)
    ensures Promotes(old(db.users), userId, updates, requester) ==> r == Err(PromotionRefused)
    ensures r.Err? ==> db.users == old(db.users)
    ensures r.Ok? <==> (!Promotes(old(db.users), userId, updates, requester)
                        && userId in old(db.users) && !OutsideUserTenant(requester, old(db.users)[userId])
                        && Permitted(requester, userId, updates) && !ChangeEmpty(Change(requester, userId, updates)))
    ensures r.Ok? ==>
      db.users == old(db.users)[userId := Applied(old(db.users)[userId], Change(requester, userId, updates))]
    ensures SuperAdminsUnscoped(old(db.users)) ==> SuperAdminsUnscoped(db.users)
  {
    if Promotes(db.users, userId, updates, requester) {
      return Err(PromotionRefused);
    }
    ghost var before := db.users;
    r := UpdateUser(db, userId, updates, requester);
    if r.Ok? && SuperAdminsUnscoped(before) {
      var u := Applied(before[userId], Change(requester, userId, updates));
      assert u.role == SuperAdmin ==> u.tenantId.None?;
    }
  }

  // ---------------------------------------------------------------- deleteUser

  /** Whether a delete passes all four checks (role, self, existence, tenant). */
  predicate Reaches(users: map<Id, User>, userId: Id, requester: Claims)
  {
    requester.role == TenantAdmin && requester.userId != userId && userId in users
    && requester.tenantId == users[userId].tenantId
  }

  /** `deleteUser(userId, requestingUser)`: the checks run role, self, existence, tenant; then
      every task assigned to the user is unassigned (and kept) and the user is removed. The
      database refuses to remove a user who created a project (the `creator` relation is required):
      the unassignment has already happened, the user stays, and `refusal` is the client library's
      message for that refusal. */
  method DeleteUser(db: Db, userId: Id, requester: Claims, refusal: string) returns (r: Result<string>)
    requires db.Valid()
    modifies db
    ensures db.Valid()
    ensures db.tenants == old(db.tenants) && db.projects == old(db.projects)
    ensures requester.role != TenantAdmin ==> r == Err(NotUserDeleter)
    ensures requester.role == TenantAdmin && requester.userId == userId ==> r == Err(SelfDelete)
    ensures (requester.role == TenantAdmin && requester.userId != userId && userId !in old(db.users)) ==>
      r == Err(UserNotFound)
    ensures (requester.role == TenantAdmin && requester.userId != userId && userId in old(db.users)
             && requester.tenantId != old(db.users)[userId].tenantId) ==>
      r == Err(DeleteElsewhere)
    ensures Reaches(old(db.users), userId, requester) && CreatedAny(db.projects, userId) ==>
      r == Err(ErrorHandler.ReferenceRefused(refusal))
    ensures r.Ok? <==> Reaches(old(db.users), userId, requester) && !CreatedAny(db.projects, userId)
    ensures !Reaches(old(db.users), userId, requester) ==> db.users == old(db.users) && db.tasks == old(db.tasks)
    ensures Reaches(old(db.users), userId, requester) ==> db.tasks == Unassign(old(db.tasks), userId)
    ensures r.Err? ==> db.users == old(db.users)
    ensures r.Ok? ==> r.value == UserDeleted && db.users == old(db.users) - {userId}
  {
    if requester.role != TenantAdmin {
      return Err(NotUserDeleter);
    }
    if requester.userId == userId {
      return Err(SelfDelete);
    }
    if userId !in db.users {
      return Err(UserNotFound);
    }
    var user := db.users[userId];
    if requester.tenantId != user.tenantId {
      return Err(DeleteElsewhere);
    }
    r := UnassignAndRemove(db, userId, refusal);
  }

  /** The two writes of a delete that passed its checks: unassign the user's tasks, then remove
      the user unless a project still names them as its creator. */
  method UnassignAndRemove(db: Db, userId: Id, refusal: string) returns (r: Result<string>)
    requires db.Valid()
    modifies db
    ensures db.Valid()
    ensures db.tenants == old(db.tenants) && db.projects == old(db.projects)
    ensures db.tasks == Unassign(old(db.tasks), userId)
    ensures CreatedAny(db.projects, userId) ==>
      r == Err(ErrorHandler.ReferenceRefused(refusal)) && db.users == old(db.users)
    ensures !CreatedAny(db.projects, userId) ==> r == Ok(UserDeleted) && db.users == old(db.users) - {userId}
  {
    var refused := CreatedAny(db.projects, userId);
    UnassignConsistent(db.tenants, db.users, db.projects, db.tasks, userId);
    db.tasks := Unassign(db.tasks, userId);
    if !refused {
      db.users := db.users - {userId};
    }
    r := if refused then Err(ErrorHandler.ReferenceRefused(refusal)) else Ok(UserDeleted);
  }
}
