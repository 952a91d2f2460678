/** The role gate put in front of routes: `requireRole(...)` and its two fixed instances. */
module Rbac {
  import opened Types

  /** One argument of `requireRole`: a role name, or an array of role names. */
  datatype RoleArg = Name(name: string) | Names(names: seq<string>)

  /** The outcome of a gate: call the next handler, or answer with an error. */
  datatype Gate = Proceed | Reject(error: ApiError)

  /** The list the closure captures: the array when it is the only argument, else the
      arguments themselves. */
  function Roles(args: seq<RoleArg>): seq<RoleArg>
  {
    if |args| == 1 && args[0].Names? then Spread(args[0].names) else args
  }

  /** The names of an array as separate arguments. */
  function Spread(names: seq<string>): (r: seq<RoleArg>)
    ensures |r| == |names| && forall i | 0 <= i < |names| :: r[i] == Name(names[i])
  {
    seq(|names|, i requires 0 <= i < |names| => Name(names[i]))
  }

  lemma SpreadHas(names: seq<string>, n: string)
    ensures Name(n) in Spread(names) <==> n in names
  {
    var spread := Spread(names);
    if n in names {
      var i :| 0 <= i < |names| && names[i] == n;
      assert spread[i] == Name(n);
    }
  }

  /** The roles a gate built from `args` lets through, stated without the normalisation: a
      string argument, or an entry of the single array argument. */
  predicate Admits(args: seq<RoleArg>, role: Role)
  {
    if |args| == 1 && args[0].Names? then RoleName(role) in args[0].names
    else Name(RoleName(role)) in args
  }

  /** The middleware `requireRole(...args)` applied to a request whose user is `user`. */
  function RequireRole(args: seq<RoleArg>, user: Option<Claims>): (r: Gate)
    ensures user.None? ==> r == Reject(ApiError(401, "Unauthorized"))
    ensures user.Some? ==> (r == Proceed <==> Admits(args, user.value.role))
    ensures user.Some? && r.Reject? ==> r.error == ApiError(403, "Forbidden: insufficient permissions")
  {
    if user.None? then Reject(ApiError(401, "Unauthorized"))
    else
      assert |args| == 1 && args[0].Names? ==> (Name(RoleName(user.value.role)) in Roles(args) <==> Admits(args, user.value.role))
        by { if |args| == 1 && args[0].Names? { SpreadHas(args[0].names, RoleName(user.value.role)); } }
      if Name(RoleName(user.value.role)) !in Roles(args) then
      Reject(ApiError(403, "Forbidden: insufficient permissions"))
    else Proceed
  }

  /** `requireRole(['a', 'b'])` and `requireRole('a', 'b')` decide every request alike. */
  lemma ArrayAndListAgree(names: seq<string>, user: Option<Claims>)
    ensures RequireRole([Names(names)], user) == RequireRole(Spread(names), user)
  {
    if user.Some? {
      var n := RoleName(user.value.role);
      SpreadHas(names, n);
      if |names| == 1 {
        assert Spread(names) == [Name(names[0])];
      }
    }
  }

  /** `requireSuperAdmin`. */
  function RequireSuperAdmin(user: Option<Claims>): (r: Gate)
    ensures r == Proceed <==> user.Some? && user.value.role == SuperAdmin
  {
    RequireRole([Name("super_admin")], user)
  }

  /** `requireTenantAdmin`: tenant admins and super admins. */
  function RequireTenantAdmin(user: Option<Claims>): (r: Gate)
    ensures r == Proceed <==> user.Some? && user.value.role in {TenantAdmin, SuperAdmin}
  {
    RequireRole([Name("tenant_admin"), Name("super_admin")], user)
  }
}
