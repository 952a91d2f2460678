/** Shared vocabulary of the backend: identifiers, roles, the status enumerations,
    the authenticated caller's claims, domain errors and raw request values. */
module Types {

  /** Row identifiers. The database generates them as UUIDs, so they are never empty. */
  type Id = s: string | s != "" witness "0"

  datatype Option<+T> = None | Some(value: T)

  /** A domain error: the HTTP status the source attaches to the thrown error, and its message. */
  datatype ApiError = ApiError(status: int, message: string)

  datatype Result<+T> = Ok(value: T) | Err(error: ApiError)

  function BadRequest(message: string): ApiError { ApiError(400, message) }
  function Forbidden(message: string): ApiError { ApiError(403, message) }
  function NotFound(message: string): ApiError { ApiError(404, message) }
  function Conflict(message: string): ApiError { ApiError(409, message) }

  /** What the database client raises when an insert reuses a unique key (its code P2002),
      as the error handler reports it. */
  const UniqueViolation := ApiError(409, "Unique constraint violation")

  // ---------------------------------------------------------------- enumerations

  datatype Role = SuperAdmin | TenantAdmin | PlainUser

  function RoleName(r: Role): string
  {
    match r
    case SuperAdmin => "super_admin"
    case TenantAdmin => "tenant_admin"
    case PlainUser => "user"
  }

  const RoleNames: seq<string> := ["super_admin", "tenant_admin", "user"]

  function ParseRole(s: string): (r: Option<Role>)
    ensures r.Some? <==> s in RoleNames
    ensures r.Some? ==> RoleName(r.value) == s
  {
    if s == "super_admin" then Some(SuperAdmin)
    else if s == "tenant_admin" then Some(TenantAdmin)
    else if s == "user" then Some(PlainUser)
    else None
  }

  datatype TenantStatus = TenantActive | TenantSuspended | TenantTrial

  function TenantStatusName(t: TenantStatus): string
  {
    match t
    case TenantActive => "active"
    case TenantSuspended => "suspended"
    case TenantTrial => "trial"
  }

  const TenantStatusNames: seq<string> := ["active", "suspended", "trial"]

  function ParseTenantStatus(s: string): (r: Option<TenantStatus>)
    ensures r.Some? <==> s in TenantStatusNames
    ensures r.Some? ==> TenantStatusName(r.value) == s
  {
    if s == "active" then Some(TenantActive)
    else if s == "suspended" then Some(TenantSuspended)
    else if s == "trial" then Some(TenantTrial)
    else None
  }

  datatype Plan = Free | Pro | Enterprise

  function PlanName(p: Plan): string
  {
    match p
    case Free => "free"
    case Pro => "pro"
    case Enterprise => "enterprise"
  }

  const PlanNames: seq<string> := ["free", "pro", "enterprise"]

  function ParsePlan(s: string): (r: Option<Plan>)
    ensures r.Some? <==> s in PlanNames
    ensures r.Some? ==> PlanName(r.value) == s
  {
    if s == "free" then Some(Free)
    else if s == "pro" then Some(Pro)
    else if s == "enterprise" then Some(Enterprise)
    else None
  }

  datatype ProjectStatus = ProjectActive | ProjectArchived | ProjectCompleted

  function ProjectStatusName(p: ProjectStatus): string
  {
    match p
    case ProjectActive => "active"
    case ProjectArchived => "archived"
    case ProjectCompleted => "completed"
  }

  const ProjectStatusNames: seq<string> := ["active", "archived", "completed"]

  function ParseProjectStatus(s: string): (r: Option<ProjectStatus>)
    ensures r.Some? <==> s in ProjectStatusNames
    ensures r.Some? ==> ProjectStatusName(r.value) == s
  {
    if s == "active" then Some(ProjectActive)
    else if s == "archived" then Some(ProjectArchived)
    else if s == "completed" then Some(ProjectCompleted)
    else None
  }

  datatype TaskStatus = Todo | InProgress | TaskCompleted

  function TaskStatusName(t: TaskStatus): string
  {
    match t
    case Todo => "todo"
    case InProgress => "in_progress"
    case TaskCompleted => "completed"
  }

  const TaskStatusNames: seq<string> := ["todo", "in_progress", "completed"]

  function ParseTaskStatus(s: string): (r: Option<TaskStatus>)
    ensures r.Some? <==> s in TaskStatusNames
    ensures r.Some? ==> TaskStatusName(r.value) == s
  {
    if s == "todo" then Some(Todo)
    else if s == "in_progress" then Some(InProgress)
    else if s == "completed" then Some(TaskCompleted)
    else None
  }

  datatype Priority = Low | Medium | High

  function PriorityName(p: Priority): string
  {
    match p
    case Low => "low"
    case Medium => "medium"
    case High => "high"
  }

  const PriorityNames: seq<string> := ["low", "medium", "high"]

  function ParsePriority(s: string): (r: Option<Priority>)
    ensures r.Some? <==> s in PriorityNames
    ensures r.Some? ==> PriorityName(r.value) == s
  {
    if s == "low" then Some(Low)
    else if s == "medium" then Some(Medium)
    else if s == "high" then Some(High)
    else None
  }

  /** Every enumeration value survives printing and parsing back. */
  lemma NamesRoundTrip(r: Role, ts: TenantStatus, p: Plan, ps: ProjectStatus, t: TaskStatus, pr: Priority)
    ensures ParseRole(RoleName(r)) == Some(r)
    ensures ParseTenantStatus(TenantStatusName(ts)) == Some(ts)
    ensures ParsePlan(PlanName(p)) == Some(p)
    ensures ParseProjectStatus(ProjectStatusName(ps)) == Some(ps)
    ensures ParseTaskStatus(TaskStatusName(t)) == Some(t)
    ensures ParsePriority(PriorityName(pr)) == Some(pr)
  {
  }

  // ---------------------------------------------------------------- callers

  /** The verified token payload the middleware stores as the request's user. */
  datatype Claims = Claims(userId: Id, tenantId: Option<Id>, role: Role)

  // ---------------------------------------------------------------- request values

  /** A value found in a parsed JSON request body. An array is known by its `length` and by
      the text `String(array)` gives (its elements' texts joined with commas); an object by
      nothing, since no check reads into one. */
  datatype Value = Null | Bool(b: bool) | Num(n: real) | Str(s: string) | Array(length: nat, text: string) | Object

  /** A query-string parameter as Express's query parser hands it over: a single string, or an
      array or object built from a repeated or bracketed key (`?a=1&a=2`, `?a[]=1`, `?a[k]=1`),
      known by the text `String(value)` gives. */
  datatype QueryValue = Single(s: string) | Composite(text: string)

  /** `String(value)`: the text a regular expression test reads. */
  function QueryText(v: QueryValue): string
  {
    if v.Single? then v.s else v.text
  }

  /** A JSON object: its keys in order, each at most once. */
  predicate DistinctKeys(fields: seq<(string, Value)>)
  {
    forall i, j | 0 <= i < j < |fields| :: fields[i].0 != fields[j].0
  }

  type Body = fields: seq<(string, Value)> | DistinctKeys(fields) witness []

  /** `body[key]`, with None standing for JavaScript's undefined. */
  function Get(body: Body, key: string): (r: Option<Value>)
    ensures r.Some? <==> key in Keys(body)
    ensures r.Some? ==> (key, r.value) in body
  {
    if |body| == 0 then None
    else if body[0].0 == key then Some(body[0].1)
    else Get(body[1..], key)
  }

  /** `Object.keys(body)`. */
  function Keys(body: seq<(string, Value)>): (r: seq<string>)
    ensures |r| == |body|
    ensures forall i | 0 <= i < |r| :: r[i] == body[i].0
  {
    if |body| == 0 then [] else [body[0].0] + Keys(body[1..])
  }

  /** `keys.filter(k => k !== kept)`: the keys, in order, other than `kept`. */
  function KeysOtherThan(keys: seq<string>, kept: string): (r: seq<string>)
    ensures forall k :: k in r <==> k in keys && k != kept
  {
    if |keys| == 0 then [] else (if keys[0] != kept then [keys[0]] else []) + KeysOtherThan(keys[1..], kept)
  }

  /** The keys of a client's object literal, each written once. */
  predicate DistinctEntries(entries: seq<(string, Option<Value>)>)
  {
    forall i, j | 0 <= i < j < |entries| :: entries[i].0 != entries[j].0
  }

  /** The value an object literal gives `key`, or undefined when it has no such entry. */
  function Lookup(entries: seq<(string, Option<Value>)>, key: string): Option<Value>
  {
    if |entries| == 0 then None
    else if entries[0].0 == key then entries[0].1
    else Lookup(entries[1..], key)
  }

  /** The body a client sends for an object literal: its entries in order, the undefined ones
      left out (JSON has no undefined). */
  function Obj(entries: seq<(string, Option<Value>)>): (body: Body)
    requires DistinctEntries(entries)
    ensures forall p | p in body :: (p.0, Some(p.1)) in entries
  {
    if |entries| == 0 then []
    else
      var rest := Obj(entries[1..]);
      if entries[0].1.None? then rest
      else
        assert forall p | p in rest :: p.0 != entries[0].0 by {
          forall p | p in rest ensures p.0 != entries[0].0 {
            var j :| 0 <= j < |entries[1..]| && entries[1..][j] == (p.0, Some(p.1));
            assert entries[j + 1].0 == p.0;
          }
        }
        [(entries[0].0, entries[0].1.value)] + rest
  }

  /** Reading a field of a sent object literal gives the value the literal wrote. */
  lemma {:induction false} ObjGet(entries: seq<(string, Option<Value>)>, key: string)
    requires DistinctEntries(entries)
    ensures Get(Obj(entries), key) == Lookup(entries, key)
  {
    if |entries| > 0 {
      ObjGet(entries[1..], key);
      var rest := Obj(entries[1..]);
      if entries[0].1.Some? {
        var body := Obj(entries);
        assert body[0] == (entries[0].0, entries[0].1.value) && body[1..] == rest;
      }
    }
  }

  /** The field an object literal writes at position `i` reads back from the body sent. */
  lemma {:induction false} ObjGetAt(entries: seq<(string, Option<Value>)>, i: nat)
    requires DistinctEntries(entries) && i < |entries|
    ensures Get(Obj(entries), entries[i].0) == entries[i].1
  {
    ObjGet(entries, entries[i].0);
    LookupAt(entries, i);
  }

  lemma {:induction false} LookupAt(entries: seq<(string, Option<Value>)>, i: nat)
    requires DistinctEntries(entries) && i < |entries|
    ensures Lookup(entries, entries[i].0) == entries[i].1
  {
    if i > 0 {
      LookupAt(entries[1..], i - 1);
    }
  }

  /** Looking up a key in a two-field body. */
  lemma GetPair(k1: string, v1: Value, k2: string, v2: Value, key: string)
    requires k1 != k2
    ensures Get([(k1, v1), (k2, v2)], key) == if key == k1 then Some(v1) else if key == k2 then Some(v2) else None
  {
    var b := [(k1, v1), (k2, v2)];
    assert b[1..] == [(k2, v2)] && b[1..][1..] == [];
  }

  /** An object literal of two given fields is sent as exactly those two fields. */
  lemma ObjPair(k1: string, v1: Value, k2: string, v2: Value)
    requires k1 != k2
    ensures Obj([(k1, Some(v1)), (k2, Some(v2))]) == [(k1, v1), (k2, v2)]
  {
    var e := [(k1, Some(v1)), (k2, Some(v2))];
    assert e[1..] == [(k2, Some(v2))] && e[1..][1..] == [];
    assert Obj(e[1..]) == [(k2, v2)];
    assert Obj(e) == [(k1, v1)] + Obj(e[1..]);
  }

  /** JavaScript truthiness of an optional body value. */
  predicate Truthy(v: Option<Value>)
  {
    match v
    case None => false
    case Some(Null) => false
    case Some(Bool(b)) => b
    case Some(Num(n)) => n != 0.0
    case Some(Str(s)) => s != ""
    case Some(Array(_, _)) => true
    case Some(Object) => true
  }

  /** `xs.join(sep)`. */
  function Join(xs: seq<string>, sep: string): string
  {
    if |xs| == 0 then ""
    else if |xs| == 1 then xs[0]
    else xs[0] + sep + Join(xs[1..], sep)
  }
}
