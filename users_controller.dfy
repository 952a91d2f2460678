/** The request checks of the user endpoints: each turns the path parameter and the body (or
    query) into the typed arguments the user model is called with, or into the 400 the endpoint
    answers with, the first failing check deciding. */
module UsersController {
  import opened Types
  import opened Validation
  import opened Listing
  import opened UsersModel

  const BadTenantId := BadRequest("Invalid tenant ID format")
  const BadUserId := BadRequest("Invalid user ID format")
  const MissingFields := BadRequest("Email, password, and fullName are required")
  const BadEmail := BadRequest("Invalid email format")
  const ShortPassword := BadRequest("Password must be at least 8 characters long")
  const BadAddedRole := OneOf("Invalid role.", AddableRoleNames)
  const BadRole := OneOf("Invalid role.", RoleNames)
  const BadRoleFilter := OneOf("Invalid role filter.", RoleNames)
  const EmptyBody := BadRequest("No update fields provided")
  const BadFullName := BadRequest("fullName must be a non-empty string")
  const BadActive := BadRequest("isActive must be a boolean")

  /** The roles a new user may be given: never super_admin. */
  const AddableRoleNames: seq<string> := ["user", "tenant_admin"]

  // ---------------------------------------------------------------- addUser

  predicate AddUserPasses(tenantId: string, body: Body, numberText: real -> string)
  {
    && IsUuid(tenantId)
    && Truthy(Get(body, "email")) && Truthy(Get(body, "password")) && Truthy(Get(body, "fullName"))
    && EmailValueOk(Get(body, "email"), numberText)
    && LongEnough(Get(body, "password"))
    && EnumOk(Get(body, "role"), AddableRoleNames)
  }

  /** The e-mail, password and name are all strings. */
  predicate FieldsText(body: Body)
  {
    && Get(body, "email").Some? && Get(body, "email").value.Str?
    && Get(body, "password").Some? && Get(body, "password").value.Str?
    && Get(body, "fullName").Some? && Get(body, "fullName").value.Str?
  }

  datatype AddUserArgs = AddUserArgs(tenantId: Id, data: NewUser)

  /** `POST /api/tenants/:tenantId/users` before the model: the tenant id, three truthy fields,
      the e-mail pattern (tested on the text the value prints as, `numberText` printing
      numbers), the password length, then a role a new user may have. `Ok(Some(..))` carries
      the fields and the role (`user` when none is given); `Ok(None)` is a request that passes
      every check with an e-mail, password or name that is not a string, which goes on to the
      hashing library and the database, outside this model. */
  function ValidateAddUser(tenantId: string, body: Body, numberText: real -> string): (r: Result<Option<AddUserArgs>>)
    ensures r.Ok? <==> AddUserPasses(tenantId, body, numberText)
    ensures !IsUuid(tenantId) ==> r == Err(BadTenantId)
    ensures (IsUuid(tenantId) &&
             !(Truthy(Get(body, "email")) && Truthy(Get(body, "password")) && Truthy(Get(body, "fullName")))) ==>
              r == Err(MissingFields)
    ensures (IsUuid(tenantId) && Truthy(Get(body, "email")) && Truthy(Get(body, "password")) &&
             Truthy(Get(body, "fullName")) && !EmailValueOk(Get(body, "email"), numberText)) ==> r == Err(BadEmail)
    ensures (IsUuid(tenantId) && Truthy(Get(body, "email")) && Truthy(Get(body, "password")) &&
             Truthy(Get(body, "fullName")) && EmailValueOk(Get(body, "email"), numberText) &&
             !LongEnough(Get(body, "password"))) ==> r == Err(ShortPassword)
    ensures (IsUuid(tenantId) && Truthy(Get(body, "email")) && Truthy(Get(body, "password")) &&
             Truthy(Get(body, "fullName")) && EmailValueOk(Get(body, "email"), numberText) &&
             LongEnough(Get(body, "password")) && !EnumOk(Get(body, "role"), AddableRoleNames)) ==>
              r == Err(BadAddedRole)
    ensures r.Ok? ==> (r.value.Some? <==> FieldsText(body))
    ensures r.Ok? && r.value.Some? ==>
              && r.value.value.tenantId == tenantId
              && Get(body, "email") == Some(Str(r.value.value.data.email)) && IsEmail(r.value.value.data.email)
              && Get(body, "password") == Some(Str(r.value.value.data.password))
              && Utf16Length(r.value.value.data.password) >= 8
              && Get(body, "fullName") == Some(Str(r.value.value.data.fullName))
              && r.value.value.data.role.Some? && r.value.value.data.role.value != SuperAdmin
              && (Get(body, "role").Some? ==> Get(body, "role") == Some(Str(RoleName(r.value.value.data.role.value))))
              && (Get(body, "role").None? ==> r.value.value.data.role == Some(PlainUser))
  {
    var email := Get(body, "email");
    var password := Get(body, "password");
    var fullName := Get(body, "fullName");
    var role := Get(body, "role");
    if !IsUuid(tenantId) then Err(BadTenantId)
    else if !Truthy(email) || !Truthy(password) || !Truthy(fullName) then Err(MissingFields)
    else if !EmailValueOk(email, numberText) then Err(BadEmail)
    else if !LongEnough(password) then Err(ShortPassword)
    else if !EnumOk(role, AddableRoleNames) then Err(BadAddedRole)
    else if !FieldsText(body) then Ok(None)
    else Ok(Some(AddedUser(tenantId, body)))
  }

  /** The arguments of a request whose fields passed the checks and are all strings. */
  function AddedUser(tenantId: string, body: Body): (a: AddUserArgs)
    requires IsUuid(tenantId) && FieldsText(body) && EnumOk(Get(body, "role"), AddableRoleNames)
    requires IsEmail(Get(body, "email").value.s) && Utf16Length(Get(body, "password").value.s) >= 8
    ensures a.tenantId == tenantId
    ensures Get(body, "email") == Some(Str(a.data.email)) && IsEmail(a.data.email)
    ensures Get(body, "password") == Some(Str(a.data.password)) && Utf16Length(a.data.password) >= 8
    ensures Get(body, "fullName") == Some(Str(a.data.fullName))
    ensures a.data.role.Some? && a.data.role.value != SuperAdmin
    ensures Get(body, "role").Some? ==> Get(body, "role") == Some(Str(RoleName(a.data.role.value)))
    ensures Get(body, "role").None? ==> a.data.role == Some(PlainUser)
  {
    var role := Get(body, "role");
    UuidIsId(tenantId);
    var given := if role.Some? then ParseRole(role.value.s).value else PlainUser;
    assert role.Some? ==> RoleName(given) == role.value.s;
    assert given != SuperAdmin;
    AddUserArgs(tenantId, NewUser(Get(body, "email").value.s, Get(body, "password").value.s,
                                  Get(body, "fullName").value.s, Some(given)))
  }

  /** No request, whatever its body, asks the model to add a super admin. */
  lemma AddedUsersAreNeverSuperAdmins(tenantId: string, body: Body, numberText: real -> string)
    requires ValidateAddUser(tenantId, body, numberText).Ok? && ValidateAddUser(tenantId, body, numberText).value.Some?
    ensures ValidateAddUser(tenantId, body, numberText).value.value.data.role != Some(SuperAdmin)
  {
  }

  /** The object literal a client writes for a new user. */
  function NewUserEntries(data: NewUser): (entries: seq<(string, Option<Value>)>)
    ensures DistinctEntries(entries)
  {
    [("email", Some(Str(data.email))),
     ("password", Some(Str(data.password))),
     ("fullName", Some(Str(data.fullName))),
     ("role", if data.role.Some? then Some(Str(RoleName(data.role.value))) else None)]
  }

  /** A new user with a well-formed e-mail, a long enough password, a non-empty name and an
      addable role survives being sent and checked; with no role given, the controller asks
      for a plain user. */
  lemma AddUserRoundTrip(tenantId: string, data: NewUser, numberText: real -> string)
    requires IsUuid(tenantId) && IsEmail(data.email) && Utf16Length(data.password) >= 8 && data.fullName != ""
    requires data.role != Some(SuperAdmin)
    ensures var r := ValidateAddUser(tenantId, Obj(NewUserEntries(data)), numberText);
              r.Ok? && r.value.Some? && r.value.value.data == data.(role := if data.role.Some? then data.role else Some(PlainUser))
  {
    var body := Obj(NewUserEntries(data));
    NewUserFields(data);
    EmailPatternIsShape(data.email);
    assert data.password != "";
    if data.role.Some? {
      NamesRoundTrip(data.role.value, TenantActive, Free, ProjectActive, Todo, Low);
    }
    assert data.email != "";
    assert EnumOk(Get(body, "role"), AddableRoleNames);
    assert Truthy(Get(body, "email")) && Truthy(Get(body, "password")) && Truthy(Get(body, "fullName"));
    assert EmailValueOk(Get(body, "email"), numberText);
    assert LongEnough(Get(body, "password"));
    assert AddUserPasses(tenantId, body, numberText);
    var r := ValidateAddUser(tenantId, body, numberText);
    assert FieldsText(body);
    assert r.value.Some?;
    var added := r.value.value.data;
    assert added.role == (if data.role.Some? then data.role else Some(PlainUser)) by {
      if data.role.Some? {
        NamesRoundTrip(added.role.value, TenantActive, Free, ProjectActive, Todo, Low);
      }
    }
  }

  /** The fields of a new user's object literal read back from the body sent. */
  lemma NewUserFields(data: NewUser)
    ensures Get(Obj(NewUserEntries(data)), "email") == Some(Str(data.email))
    ensures Get(Obj(NewUserEntries(data)), "password") == Some(Str(data.password))
    ensures Get(Obj(NewUserEntries(data)), "fullName") == Some(Str(data.fullName))
    ensures Get(Obj(NewUserEntries(data)), "role") ==
              if data.role.Some? then Some(Str(RoleName(data.role.value))) else None
  {
    var entries := NewUserEntries(data);
    ObjGetAt(entries, 0);
    ObjGetAt(entries, 1);
    ObjGetAt(entries, 2);
    ObjGetAt(entries, 3);
  }

  // ---------------------------------------------------------------- listUsers

  datatype ListUsersArgs = ListUsersArgs(tenantId: Id, query: UserQuery)

  /** `GET /api/tenants/:tenantId/users` before the model: the tenant id, the page, the limit,
      then the role filter. On success the query holds the parsed role, the search value as
      given (unchecked: an array or object passes) and paging options the model accepts. */
  function ValidateListUsers(tenantId: string, search: Option<QueryValue>, role: Option<QueryValue>, page: Parsed,
                             limit: Parsed): (r: Result<ListUsersArgs>)
    ensures !IsUuid(tenantId) ==> r == Err(BadTenantId)
    ensures (IsUuid(tenantId) && CheckPage(page).Some?) ==> r == Err(CheckPage(page).value)
    ensures (IsUuid(tenantId) && CheckPage(page).None? && CheckLimit(limit).Some?) ==> r == Err(CheckLimit(limit).value)
    ensures (IsUuid(tenantId) && CheckPage(page).None? && CheckLimit(limit).None? && !EnumParamOk(role, RoleNames)) ==>
              r == Err(BadRoleFilter)
    ensures r.Ok? <==> (IsUuid(tenantId) && CheckPage(page).None? && CheckLimit(limit).None? &&
                        EnumParamOk(role, RoleNames))
    ensures r.Ok? ==> r.value.tenantId == tenantId && PagingOk(r.value.query.page, r.value.query.limit)
    ensures r.Ok? ==> r.value.query.page == ParsedArg(page) && r.value.query.limit == ParsedArg(limit)
    ensures r.Ok? ==> r.value.query.search == search && (r.value.query.role.Some? <==> role.Some?)
    ensures r.Ok? && role.Some? ==> RoleName(r.value.query.role.value) == role.value.s
  {
    if !IsUuid(tenantId) then Err(BadTenantId)
    else if CheckPage(page).Some? then Err(CheckPage(page).value)
    else if CheckLimit(limit).Some? then Err(CheckLimit(limit).value)
    else if !EnumParamOk(role, RoleNames) then Err(BadRoleFilter)
    else
      UuidIsId(tenantId);
      CheckedPagingOk(page, limit);
      var given := if role.Some? then ParseRole(role.value.s) else None;
      Ok(ListUsersArgs(tenantId, UserQuery(search, given, ParsedArg(page), ParsedArg(limit))))
  }

  // ---------------------------------------------------------------- updateUser

  predicate UpdateUserPasses(userId: string, body: Body)
  {
    && IsUuid(userId)
    && |body| != 0
    && NonBlankOk(Get(body, "fullName"))
    && EnumOk(Get(body, "role"), RoleNames)
    && (Get(body, "isActive").Some? ==> Get(body, "isActive").value.Bool?)
  }

  /** `PUT /api/users/:userId` before the model: the user id, a body with at least one key, a
      non-blank name, a known role and a boolean `isActive` when those are given. The updates
      list every key of the body, in order, and hold the three fields the model may write,
      each present exactly when its key is. */
  function ValidateUpdateUser(userId: string, body: Body): (r: Result<(Id, UserUpdates)>)
    ensures r.Ok? <==> UpdateUserPasses(userId, body)
    ensures !IsUuid(userId) ==> r == Err(BadUserId)
    ensures (IsUuid(userId) && |body| == 0) ==> r == Err(EmptyBody)
    ensures (IsUuid(userId) && |body| != 0 && !NonBlankOk(Get(body, "fullName"))) ==> r == Err(BadFullName)
    ensures (IsUuid(userId) && |body| != 0 && NonBlankOk(Get(body, "fullName")) &&
             !EnumOk(Get(body, "role"), RoleNames)) ==> r == Err(BadRole)
    ensures (IsUuid(userId) && |body| != 0 && NonBlankOk(Get(body, "fullName")) && EnumOk(Get(body, "role"), RoleNames) &&
             Get(body, "isActive").Some? && !Get(body, "isActive").value.Bool?) ==> r == Err(BadActive)
    ensures r.Ok? ==> r.value.0 == userId && r.value.1.keys == Keys(body) && WellFormed(r.value.1)
    ensures r.Ok? && r.value.1.fullName.Some? ==> Get(body, "fullName") == Some(Str(r.value.1.fullName.value))
    ensures r.Ok? && r.value.1.role.Some? ==> Get(body, "role") == Some(Str(RoleName(r.value.1.role.value)))
    ensures r.Ok? && r.value.1.isActive.Some? ==> Get(body, "isActive") == Some(Bool(r.value.1.isActive.value))
  {
    var fullName := Get(body, "fullName");
    var role := Get(body, "role");
    var isActive := Get(body, "isActive");
    if !IsUuid(userId) then Err(BadUserId)
    else if |body| == 0 then Err(EmptyBody)
    else if !NonBlankOk(fullName) then Err(BadFullName)
    else if !EnumOk(role, RoleNames) then Err(BadRole)
    else if isActive.Some? && !isActive.value.Bool? then Err(BadActive)
    else
      UuidIsId(userId);
      Ok((userId, BodyUpdates(body)))
  }

  /** The updates a body that passed the field checks asks for. */
  function BodyUpdates(body: Body): (u: UserUpdates)
    requires NonBlankOk(Get(body, "fullName")) && EnumOk(Get(body, "role"), RoleNames)
    requires Get(body, "isActive").Some? ==> Get(body, "isActive").value.Bool?
    ensures u.keys == Keys(body) && WellFormed(u)
    ensures u.fullName.Some? ==> Get(body, "fullName") == Some(Str(u.fullName.value))
    ensures u.role.Some? ==> Get(body, "role") == Some(Str(RoleName(u.role.value)))
    ensures u.isActive.Some? ==> Get(body, "isActive") == Some(Bool(u.isActive.value))
  {
    var fullName := Get(body, "fullName");
    var role := Get(body, "role");
    var isActive := Get(body, "isActive");
    KeysDistinct(body);
    var u := UserUpdates(Keys(body),
                         if fullName.Some? then Some(fullName.value.s) else None,
                         if role.Some? then ParseRole(role.value.s) else None,
                         if isActive.Some? then Some(isActive.value.b) else None);
    assert u.fullName.Some? <==> "fullName" in u.keys;
    assert u.role.Some? <==> "role" in u.keys;
    assert u.isActive.Some? <==> "isActive" in u.keys;
    u
  }

  /** A user renaming themselves passes the controller and the model's permission check. */
  lemma SelfRenameAccepted(requester: Claims, name: string)
    requires IsUuid(requester.userId) && |Trim(name)| != 0
    ensures var r := ValidateUpdateUser(requester.userId, Obj([("fullName", Some(Str(name)))]));
              r.Ok? && Permitted(requester, requester.userId, r.value.1)
  {
    var one := [("fullName", Some(Str(name)))];
    ObjGetAt(one, 0);
    ObjGet(one, "role");
    ObjGet(one, "isActive");
    var body := Obj(one);
    assert body == [("fullName", Str(name))];
    assert UpdateUserPasses(requester.userId, body);
    var u := ValidateUpdateUser(requester.userId, body).value.1;
    assert u.keys == ["fullName"];
    assert Restricted(u.keys) == [] + Restricted([]);
  }

  /** The same rename with any other valid key beside it passes the controller but not the
      model's permission check. */
  lemma SelfRenameWithMoreRefused(requester: Claims, name: string, other: string, v: Value, body: Body)
    requires IsUuid(requester.userId) && |Trim(name)| != 0
    requires other != "fullName" && (other == "role" ==> v.Str? && v.s in RoleNames)
    requires other == "isActive" ==> v.Bool?
    requires body == [("fullName", Str(name)), (other, v)]
    ensures var r := ValidateUpdateUser(requester.userId, body);
              r.Ok? && !Permitted(requester, requester.userId, r.value.1)
  {
    RenameWithMorePasses(requester.userId, name, other, v, body);
    assert other in Restricted(["fullName", other]);
  }

  lemma RenameWithMorePasses(userId: string, name: string, other: string, v: Value, body: Body)
    requires IsUuid(userId) && |Trim(name)| != 0
    requires other != "fullName" && (other == "role" ==> v.Str? && v.s in RoleNames)
    requires other == "isActive" ==> v.Bool?
    requires body == [("fullName", Str(name)), (other, v)]
    ensures var r := ValidateUpdateUser(userId, body); r.Ok? && r.value.1.keys == ["fullName", other]
  {
    RenamePairPasses(userId, name, other, v);
    assert Keys(body) == ["fullName", other];
  }

  lemma RenamePairPasses(userId: string, name: string, other: string, v: Value)
    requires IsUuid(userId) && |Trim(name)| != 0
    requires other != "fullName" && (other == "role" ==> v.Str? && v.s in RoleNames)
    requires other == "isActive" ==> v.Bool?
    ensures UpdateUserPasses(userId, [("fullName", Str(name)), (other, v)])
  {
    GetPair("fullName", Str(name), other, v, "fullName");
    GetPair("fullName", Str(name), other, v, "role");
    GetPair("fullName", Str(name), other, v, "isActive");
  }

  /** The controller's role list for an update includes `super_admin`, so a body asking only for
      that role passes and reaches the model as a promotion. */
  lemma PromotionBodyAccepted(userId: string)
    requires IsUuid(userId)
    ensures ValidateUpdateUser(userId, [("role", Str("super_admin"))]) ==
              Ok((userId, UserUpdates(["role"], None, Some(SuperAdmin), None)))
  {
    var body: Body := [("role", Str("super_admin"))];
    assert Get(body, "fullName") == None && Get(body, "isActive") == None;
    assert Get(body, "role") == Some(Str("super_admin"));
    assert "super_admin" in RoleNames;
    assert UpdateUserPasses(userId, body);
    assert Keys(body) == ["role"];
  }

  // ---------------------------------------------------------------- deleteUser

  /** `DELETE /api/users/:userId` before the model: only the id's shape is checked. */
  function ValidateDeleteUser(userId: string): (r: Result<Id>)
    ensures r.Ok? <==> IsUuid(userId)
    ensures r.Ok? ==> r.value == userId
    ensures r.Err? ==> r.error == BadUserId
  {
    if !IsUuid(userId) then Err(BadUserId)
    else
      UuidIsId(userId);
      Ok(userId)
  }
}
