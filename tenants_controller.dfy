/** The request checks of the tenant endpoints: each turns the path parameter and the body (or
    query) into the typed arguments the tenant model is called with, or into the 400 the
    endpoint answers with, the first failing check deciding. */
module TenantsController {
  import opened Types
  import opened Validation
  import opened Listing
  import opened TenantsModel

  const BadTenantId := BadRequest("Invalid tenant ID format")
  const EmptyBody := BadRequest("No update fields provided")
  const BadName := BadRequest("Tenant name must be a non-empty string")
  const BadStatus := OneOf("Invalid status.", TenantStatusNames)
  const BadPlan := OneOf("Invalid subscription plan.", PlanNames)
  const BadMaxUsers := BadRequest("maxUsers must be a positive integer")
  const BadMaxProjects := BadRequest("maxProjects must be a positive integer")
  const BadStatusFilter := OneOf("Invalid status filter.", TenantStatusNames)
  const BadPlanFilter := OneOf("Invalid subscription plan filter.", PlanNames)

  /** `Number.isInteger(v) && v >= 1` for an optional body field that is present. */
  predicate PositiveIntOk(v: Option<Value>)
  {
    v.None? || (v.value.Num? && v.value.n.Floor as real == v.value.n && v.value.n >= 1.0)
  }

  function PositiveIntArg(v: Option<Value>): (r: Option<int>)
    requires PositiveIntOk(v)
    ensures r.Some? <==> v.Some?
    ensures r.Some? ==> r.value >= 1 && v.value == Num(r.value as real)
  {
    if v.None? then None else Some(v.value.n.Floor)
  }

  // ---------------------------------------------------------------- getTenantById

  /** `GET /api/tenants/:tenantId` before the model: only the id's shape is checked. */
  function ValidateGetTenant(tenantId: string): (r: Result<Id>)
    ensures r.Ok? <==> IsUuid(tenantId)
    ensures r.Ok? ==> r.value == tenantId
    ensures r.Err? ==> r.error == BadTenantId
  {
    if !IsUuid(tenantId) then Err(BadTenantId)
    else
      UuidIsId(tenantId);
      Ok(tenantId)
  }

  // ---------------------------------------------------------------- updateTenant

  predicate UpdateTenantPasses(tenantId: string, body: Body)
  {
    && IsUuid(tenantId)
    && |body| != 0
    && NonBlankOk(Get(body, "name"))
    && EnumOk(Get(body, "status"), TenantStatusNames)
    && EnumOk(Get(body, "subscriptionPlan"), PlanNames)
    && PositiveIntOk(Get(body, "maxUsers"))
    && PositiveIntOk(Get(body, "maxProjects"))
  }

  /** `PUT /api/tenants/:tenantId` before the model: the tenant id, a body with at least one
      key, then each field given — a non-blank name, a known status, a known plan, and whole
      positive caps, in that order. The updates list every key of the body, in order, and hold
      the five fields the model may write, each present exactly when its key is. */
  function ValidateUpdateTenant(tenantId: string, body: Body): (r: Result<(Id, TenantUpdates)>)
    ensures r.Ok? <==> UpdateTenantPasses(tenantId, body)
    ensures !IsUuid(tenantId) ==> r == Err(BadTenantId)
    ensures (IsUuid(tenantId) && |body| == 0) ==> r == Err(EmptyBody)
    ensures (IsUuid(tenantId) && |body| != 0 && !NonBlankOk(Get(body, "name"))) ==> r == Err(BadName)
    ensures (IsUuid(tenantId) && |body| != 0 && NonBlankOk(Get(body, "name")) &&
             !EnumOk(Get(body, "status"), TenantStatusNames)) ==> r == Err(BadStatus)
    ensures (IsUuid(tenantId) && |body| != 0 && NonBlankOk(Get(body, "name")) &&
             EnumOk(Get(body, "status"), TenantStatusNames) &&
             !EnumOk(Get(body, "subscriptionPlan"), PlanNames)) ==> r == Err(BadPlan)
    ensures (IsUuid(tenantId) && |body| != 0 && NonBlankOk(Get(body, "name")) &&
             EnumOk(Get(body, "status"), TenantStatusNames) && EnumOk(Get(body, "subscriptionPlan"), PlanNames) &&
             !PositiveIntOk(Get(body, "maxUsers"))) ==> r == Err(BadMaxUsers)
    ensures (IsUuid(tenantId) && |body| != 0 && NonBlankOk(Get(body, "name")) &&
             EnumOk(Get(body, "status"), TenantStatusNames) && EnumOk(Get(body, "subscriptionPlan"), PlanNames) &&
             PositiveIntOk(Get(body, "maxUsers")) && !PositiveIntOk(Get(body, "maxProjects"))) ==> r == Err(BadMaxProjects)
    ensures r.Ok? ==> r.value.0 == tenantId && r.value.1.keys == Keys(body) && WellFormed(r.value.1)
    ensures r.Ok? && r.value.1.name.Some? ==> Get(body, "name") == Some(Str(r.value.1.name.value))
    ensures r.Ok? && r.value.1.status.Some? ==>
              Get(body, "status") == Some(Str(TenantStatusName(r.value.1.status.value)))
    ensures r.Ok? && r.value.1.subscriptionPlan.Some? ==>
              Get(body, "subscriptionPlan") == Some(Str(PlanName(r.value.1.subscriptionPlan.value)))
    ensures r.Ok? ==> r.value.1.maxUsers == PositiveIntArg(Get(body, "maxUsers"))
    ensures r.Ok? ==> r.value.1.maxProjects == PositiveIntArg(Get(body, "maxProjects"))
  {
    var name := Get(body, "name");
    var status := Get(body, "status");
    var plan := Get(body, "subscriptionPlan");
    var maxUsers := Get(body, "maxUsers");
    var maxProjects := Get(body, "maxProjects");
    if !IsUuid(tenantId) then Err(BadTenantId)
    else if |body| == 0 then Err(EmptyBody)
    else if !NonBlankOk(name) then Err(BadName)
    else if !EnumOk(status, TenantStatusNames) then Err(BadStatus)
    else if !EnumOk(plan, PlanNames) then Err(BadPlan)
    else if !PositiveIntOk(maxUsers) then Err(BadMaxUsers)
    else if !PositiveIntOk(maxProjects) then Err(BadMaxProjects)
    else
      UuidIsId(tenantId);
      Ok((tenantId, BodyUpdates(body)))
  }

  /** The updates a body that passed the field checks asks for. */
  function BodyUpdates(body: Body): (u: TenantUpdates)
    requires NonBlankOk(Get(body, "name"))
    requires EnumOk(Get(body, "status"), TenantStatusNames) && EnumOk(Get(body, "subscriptionPlan"), PlanNames)
    requires PositiveIntOk(Get(body, "maxUsers")) && PositiveIntOk(Get(body, "maxProjects"))
    ensures u.keys == Keys(body) && WellFormed(u)
    ensures u.name.Some? ==> Get(body, "name") == Some(Str(u.name.value))
    ensures u.status.Some? ==> Get(body, "status") == Some(Str(TenantStatusName(u.status.value)))
    ensures u.subscriptionPlan.Some? ==> Get(body, "subscriptionPlan") == Some(Str(PlanName(u.subscriptionPlan.value)))
    ensures u.maxUsers == PositiveIntArg(Get(body, "maxUsers"))
    ensures u.maxProjects == PositiveIntArg(Get(body, "maxProjects"))
  {
    var name := Get(body, "name");
    var status := Get(body, "status");
    var plan := Get(body, "subscriptionPlan");
    KeysDistinct(body);
    TenantUpdates(Keys(body),
                  if name.Some? then Some(name.value.s) else None,
                  if status.Some? then ParseTenantStatus(status.value.s) else None,
                  if plan.Some? then ParsePlan(plan.value.s) else None,
                  PositiveIntArg(Get(body, "maxUsers")), PositiveIntArg(Get(body, "maxProjects")))
  }

  /** A body holding only a user cap passes the checks exactly when the cap is a whole number
      of at least 1 (a fraction, zero, or a numeric string is refused), and that number is
      the cap the model is asked to set. */
  lemma UserCapAloneChecked(tenantId: string, v: Value)
    requires IsUuid(tenantId)
    ensures ValidateUpdateTenant(tenantId, [("maxUsers", v)]).Ok? <==>
              v.Num? && v.n.Floor as real == v.n && v.n >= 1.0
    ensures ValidateUpdateTenant(tenantId, [("maxUsers", v)]).Ok? ==>
              ValidateUpdateTenant(tenantId, [("maxUsers", v)]).value.1.maxUsers == Some(v.n.Floor)
    ensures !ValidateUpdateTenant(tenantId, [("maxUsers", v)]).Ok? ==>
              ValidateUpdateTenant(tenantId, [("maxUsers", v)]) == Err(BadMaxUsers)
  {
    var body: Body := [("maxUsers", v)];
    assert Get(body, "name") == None && Get(body, "status") == None && Get(body, "subscriptionPlan") == None;
    assert Get(body, "maxProjects") == None && Get(body, "maxUsers") == Some(v);
  }

  /** A tenant admin's rename of their own tenant passes the controller and is allowed by the
      model. */
  lemma AdminRenameAccepted(requester: Claims, tenantId: Id, name: string, body: Body)
    requires IsUuid(tenantId) && |Trim(name)| != 0
    requires requester.role == TenantAdmin && requester.tenantId == Some(tenantId)
    requires body == [("name", Str(name))]
    ensures var r := ValidateUpdateTenant(tenantId, body); r.Ok? && Permitted(requester, tenantId, r.value.1)
  {
    assert UpdateTenantPasses(tenantId, body) by {
      assert Get(body, "name") == Some(Str(name));
      assert Get(body, "status") == None && Get(body, "subscriptionPlan") == None;
      assert Get(body, "maxUsers") == None && Get(body, "maxProjects") == None;
    }
    var u := ValidateUpdateTenant(tenantId, body).value.1;
    assert u.keys == ["name"];
    TenantAdminPermittedIffOnlyName(requester, tenantId, u);
  }

  /** A field the controller accepts under `key`: a known status or plan, or a whole
      positive cap. */
  predicate AcceptedField(key: string, v: Value)
  {
    && (key == "status" ==> v.Str? && v.s in TenantStatusNames)
    && (key == "subscriptionPlan" ==> v.Str? && v.s in PlanNames)
    && (key == "maxUsers" ==> PositiveIntOk(Some(v)))
    && (key == "maxProjects" ==> PositiveIntOk(Some(v)))
  }

  /** The same rename with any other accepted field beside it (a cap of any size, a status,
      a plan, or a key the controller does not know) passes the controller and is refused by
      the model. */
  lemma AdminRenameWithMoreRefused(requester: Claims, tenantId: Id, name: string, other: string, v: Value,
                                   body: Body)
    requires IsUuid(tenantId) && |Trim(name)| != 0
    requires requester.role == TenantAdmin && requester.tenantId == Some(tenantId)
    requires other != "name" && AcceptedField(other, v)
    requires body == [("name", Str(name)), (other, v)]
    ensures var r := ValidateUpdateTenant(tenantId, body); r.Ok? && !Permitted(requester, tenantId, r.value.1)
  {
    RenameWithMorePasses(tenantId, name, other, v);
    assert Keys(body) == ["name", other];
    var u := ValidateUpdateTenant(tenantId, body).value.1;
    TenantAdminPermittedIffOnlyName(requester, tenantId, u);
  }

  lemma RenameWithMorePasses(tenantId: Id, name: string, other: string, v: Value)
    requires IsUuid(tenantId) && |Trim(name)| != 0
    requires other != "name" && AcceptedField(other, v)
    ensures UpdateTenantPasses(tenantId, [("name", Str(name)), (other, v)])
  {
    GetPair("name", Str(name), other, v, "name");
    GetPair("name", Str(name), other, v, "status");
    GetPair("name", Str(name), other, v, "subscriptionPlan");
    GetPair("name", Str(name), other, v, "maxUsers");
    GetPair("name", Str(name), other, v, "maxProjects");
  }

  // ---------------------------------------------------------------- listAllTenants

  /** `GET /api/tenants` before the model: the page, the limit, the status filter, then the
      plan filter. On success the query holds the parsed filters, the search value as given
      (unchecked: an array or object passes) and paging options the model accepts. */
  function ValidateListTenants(page: Parsed, limit: Parsed, status: Option<QueryValue>, plan: Option<QueryValue>,
                               search: Option<QueryValue>): (r: Result<TenantQuery>)
    ensures CheckPage(page).Some? ==> r == Err(CheckPage(page).value)
    ensures (CheckPage(page).None? && CheckLimit(limit).Some?) ==> r == Err(CheckLimit(limit).value)
    ensures (CheckPage(page).None? && CheckLimit(limit).None? && !EnumParamOk(status, TenantStatusNames)) ==>
              r == Err(BadStatusFilter)
    ensures (CheckPage(page).None? && CheckLimit(limit).None? && EnumParamOk(status, TenantStatusNames) &&
             !EnumParamOk(plan, PlanNames)) ==> r == Err(BadPlanFilter)
    ensures r.Ok? <==> (CheckPage(page).None? && CheckLimit(limit).None? &&
                        EnumParamOk(status, TenantStatusNames) && EnumParamOk(plan, PlanNames))
    ensures r.Ok? ==> PagingOk(r.value.page, r.value.limit) && r.value.search == search
    ensures r.Ok? ==> r.value.page == ParsedArg(page) && r.value.limit == ParsedArg(limit)
    ensures r.Ok? ==> (r.value.status.Some? <==> status.Some?) && (r.value.subscriptionPlan.Some? <==> plan.Some?)
    ensures r.Ok? && status.Some? ==> TenantStatusName(r.value.status.value) == status.value.s
    ensures r.Ok? && plan.Some? ==> PlanName(r.value.subscriptionPlan.value) == plan.value.s
  {
    if CheckPage(page).Some? then Err(CheckPage(page).value)
    else if CheckLimit(limit).Some? then Err(CheckLimit(limit).value)
    else if !EnumParamOk(status, TenantStatusNames) then Err(BadStatusFilter)
    else if !EnumParamOk(plan, PlanNames) then Err(BadPlanFilter)
    else
      CheckedPagingOk(page, limit);
      var s := if status.Some? then ParseTenantStatus(status.value.s) else None;
      var p := if plan.Some? then ParsePlan(plan.value.s) else None;
      Ok(TenantQuery(ParsedArg(page), ParsedArg(limit), s, p, search))
  }
}
