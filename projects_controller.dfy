/** The request checks of the project endpoints: each turns the path parameter and the body
    (or query) into the typed arguments the project model is called with, or into the 400 the
    endpoint answers with, the first failing check deciding. */
module ProjectsController {
  import opened Types
  import opened Validation
  import opened Listing
  import opened ProjectsModel
  import TasksController

  const NameRequired := BadRequest("Project name is required")
  const BadName := BadRequest("Project name must be a non-empty string")
  const BadStatus := OneOf("Invalid status.", ProjectStatusNames)
  const BadStatusFilter := OneOf("Invalid status filter.", ProjectStatusNames)
  const BadProjectId := BadRequest("Invalid project ID format")
  const EmptyBody := BadRequest("No update fields provided")

  function StatusArg(v: Option<Value>): (r: Option<ProjectStatus>)
    requires EnumOk(v, ProjectStatusNames)
    ensures r.Some? <==> v.Some?
    ensures r.Some? ==> ProjectStatusName(r.value) == v.value.s
  {
    if v.None? then None else ParseProjectStatus(v.value.s)
  }

  // ---------------------------------------------------------------- createProject

  /** `POST /api/projects` before the model: a truthy name, then a name with something besides
      whitespace, then a known status when one is given. The project data carries the body's
      name, its description when it is a string, and the status (the model defaults it). The
      controller does not look at the description: a truthy one that is not a string passes,
      and the database then refuses the row the model writes with it (`Ok(None)`). */
  function ValidateCreateProject(body: Body): (r: Result<Option<NewProject>>)
    ensures r.Ok? <==> IsNonBlankString(Get(body, "name")) && EnumOk(Get(body, "status"), ProjectStatusNames)
    ensures !Truthy(Get(body, "name")) ==> r == Err(NameRequired)
    ensures (Truthy(Get(body, "name")) && !IsNonBlankString(Get(body, "name"))) ==> r == Err(BadName)
    ensures (IsNonBlankString(Get(body, "name")) && !EnumOk(Get(body, "status"), ProjectStatusNames)) ==>
              r == Err(BadStatus)
    ensures r.Ok? ==> (r.value.Some? <==> FalsyOrText(Get(body, "description")))
    ensures r.Ok? && r.value.Some? ==>
              && Get(body, "name") == Some(Str(r.value.value.name)) && |Trim(r.value.value.name)| != 0
              && r.value.value.description == TextArg(Get(body, "description"))
              && r.value.value.status == StatusArg(Get(body, "status"))
  {
    var name := Get(body, "name");
    var description := Get(body, "description");
    var status := Get(body, "status");
    NonBlankIsTruthy(name);
    if !Truthy(name) then Err(NameRequired)
    else if !IsNonBlankString(name) then Err(BadName)
    else if !EnumOk(status, ProjectStatusNames) then Err(BadStatus)
    else if !FalsyOrText(description) then Ok(None)
    else Ok(Some(NewProject(name.value.s, TextArg(description), StatusArg(status))))
  }

  /** The object literal a client writes for project data. */
  function NewProjectEntries(data: NewProject): (entries: seq<(string, Option<Value>)>)
    ensures DistinctEntries(entries)
  {
    [("name", Some(Str(data.name))),
     ("description", if data.description.Some? then Some(Str(data.description.value)) else None),
     ("status", if data.status.Some? then Some(Str(ProjectStatusName(data.status.value))) else None)]
  }

  /** Project data with a non-blank name survives being sent as a body and checked. */
  lemma CreateProjectRoundTrip(data: NewProject)
    requires |Trim(data.name)| != 0
    ensures ValidateCreateProject(Obj(NewProjectEntries(data))) == Ok(Some(data))
  {
    var entries := NewProjectEntries(data);
    var body := Obj(entries);
    ObjGetAt(entries, 0);
    ObjGetAt(entries, 1);
    ObjGetAt(entries, 2);
    assert Get(body, "name") == Some(Str(data.name));
    assert TextArg(Get(body, "description")) == data.description;
    if data.status.Some? {
      NamesRoundTrip(PlainUser, TenantActive, Free, data.status.value, Todo, Low);
    }
    assert EnumOk(Get(body, "status"), ProjectStatusNames);
    assert FalsyOrText(Get(body, "description"));
    var r := ValidateCreateProject(body);
    assert r.Ok? && r.value.Some?;
    assert r.value.value.status == data.status by {
      if data.status.Some? {
        NamesRoundTrip(PlainUser, TenantActive, Free, r.value.value.status.value, Todo, Low);
      }
    }
  }

  // ---------------------------------------------------------------- listProjects

  /** `GET /api/projects` before the model: the page, the limit, then the status filter (this
      endpoint checks paging first). On success the query holds the parsed filter, the search
      value as given (unchecked: an array or object passes) and paging options the model
      accepts. */
  function ValidateListProjects(status: Option<QueryValue>, search: Option<QueryValue>, page: Parsed, limit: Parsed)
    : (r: Result<ProjectQuery>)
    ensures CheckPage(page).Some? ==> r == Err(CheckPage(page).value)
    ensures (CheckPage(page).None? && CheckLimit(limit).Some?) ==> r == Err(CheckLimit(limit).value)
    ensures (CheckPage(page).None? && CheckLimit(limit).None? && !EnumParamOk(status, ProjectStatusNames)) ==>
              r == Err(BadStatusFilter)
    ensures r.Ok? <==> CheckPage(page).None? && CheckLimit(limit).None? && EnumParamOk(status, ProjectStatusNames)
    ensures r.Ok? ==> PagingOk(r.value.page, r.value.limit)
    ensures r.Ok? ==> r.value.page == ParsedArg(page) && r.value.limit == ParsedArg(limit) && r.value.search == search
    ensures r.Ok? ==> (r.value.status.Some? <==> status.Some?)
    ensures r.Ok? && status.Some? ==> ProjectStatusName(r.value.status.value) == status.value.s
  {
    if CheckPage(page).Some? then Err(CheckPage(page).value)
    else if CheckLimit(limit).Some? then Err(CheckLimit(limit).value)
    else if !EnumParamOk(status, ProjectStatusNames) then Err(BadStatusFilter)
    else
      CheckedPagingOk(page, limit);
      var s := if status.Some? then ParseProjectStatus(status.value.s) else None;
      Ok(ProjectQuery(s, search, ParsedArg(page), ParsedArg(limit)))
  }

  /** A bad page is reported before a bad status filter, whatever the two are: the order
      differs from the task list, which reports the status filter first. */
  lemma PagingCheckedBeforeStatus(projectId: string, status: QueryValue, search: Option<QueryValue>, page: Parsed,
                                  limit: Parsed)
    requires IsUuid(projectId) && CheckPage(page).Some?
    requires !EnumParamOk(Some(status), ProjectStatusNames) && !EnumParamOk(Some(status), TaskStatusNames)
    ensures ValidateListProjects(Some(status), search, page, limit) == Err(BadRequest("Page must be a positive integer"))
    ensures TasksController.ValidateListProjectTasks(projectId, Some(status), None, None, search, page, limit)
            == Err(TasksController.BadStatusFilter)
  {
  }

  // ---------------------------------------------------------------- updateProject

  /** `PUT /api/projects/:projectId` before the model: the project id, a body with at least one
      key, then a non-blank name and a known status when those are given. The patch holds the
      name, description and status present in the body (an explicit null clears the
      description); any other keys pass the controller and are ignored by the model. The
      controller does not look at the description: one that is neither null nor a string
      passes, and the database then refuses the update the model makes with it (`Ok(None)`). */
  function ValidateUpdateProject(projectId: string, body: Body): (r: Result<Option<(Id, ProjectPatch)>>)
    ensures !IsUuid(projectId) ==> r == Err(BadProjectId)
    ensures (IsUuid(projectId) && |body| == 0) ==> r == Err(EmptyBody)
    ensures (IsUuid(projectId) && |body| != 0 && !NonBlankOk(Get(body, "name"))) ==> r == Err(BadName)
    ensures (IsUuid(projectId) && |body| != 0 && NonBlankOk(Get(body, "name")) &&
             !EnumOk(Get(body, "status"), ProjectStatusNames)) ==> r == Err(BadStatus)
    ensures r.Ok? <==> (IsUuid(projectId) && |body| != 0 && NonBlankOk(Get(body, "name")) &&
                        EnumOk(Get(body, "status"), ProjectStatusNames))
    ensures r.Ok? ==> (r.value.Some? <==> TextOrAbsent(Get(body, "description")))
    ensures r.Ok? && r.value.Some? ==> r.value.value.0 == projectId
    ensures r.Ok? && r.value.Some? ==> (r.value.value.1.name.Some? <==> "name" in Keys(body))
    ensures r.Ok? && r.value.Some? && r.value.value.1.name.Some? ==>
              Get(body, "name") == Some(Str(r.value.value.1.name.value))
    ensures r.Ok? && r.value.Some? ==> (r.value.value.1.description.Some? <==> "description" in Keys(body))
    ensures r.Ok? && r.value.Some? && r.value.value.1.description.Some? ==>
              r.value.value.1.description.value == TextArg(Get(body, "description"))
    ensures r.Ok? && r.value.Some? ==> r.value.value.1.status == StatusArg(Get(body, "status"))
  {
    var name := Get(body, "name");
    var description := Get(body, "description");
    var status := Get(body, "status");
    if !IsUuid(projectId) then Err(BadProjectId)
    else if |body| == 0 then Err(EmptyBody)
    else if !NonBlankOk(name) then Err(BadName)
    else if !EnumOk(status, ProjectStatusNames) then Err(BadStatus)
    else if !TextOrAbsent(description) then Ok(None)
    else
      UuidIsId(projectId);
      var text := if description.Some? then Some(TextArg(description)) else None;
      Ok(Some((projectId, ProjectPatch(if name.Some? then Some(name.value.s) else None, text, StatusArg(status)))))
  }

  /** Every non-empty body without a name, a description or a status passes the controller
      with an empty patch, which the model then refuses with its own 400. */
  lemma UnknownKeysReachModel(projectId: string, body: Body)
    requires IsUuid(projectId) && |body| != 0
    requires "name" !in Keys(body) && "description" !in Keys(body) && "status" !in Keys(body)
    ensures var r := ValidateUpdateProject(projectId, body); r.Ok? && r.value.Some? && PatchEmpty(r.value.value.1)
  {
  }

  // ---------------------------------------------------------------- deleteProject

  /** `DELETE /api/projects/:projectId` before the model: only the id's shape is checked. */
  function ValidateDeleteProject(projectId: string): (r: Result<Id>)
    ensures r.Ok? <==> IsUuid(projectId)
    ensures r.Ok? ==> r.value == projectId
    ensures r.Err? ==> r.error == BadProjectId
  {
    if !IsUuid(projectId) then Err(BadProjectId)
    else
      UuidIsId(projectId);
      Ok(projectId)
  }
}
