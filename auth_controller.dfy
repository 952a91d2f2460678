/** The request checks of the authentication endpoints, and the logout answer. Registration
    and login turn the body into the arguments of the auth model or into the 400 the endpoint
    answers with; a request that passes every check with a value that is not text goes on to
    code outside this model and is reported as `Ok(None)`. */
module AuthController {
  import opened Types
  import opened Validation
  import opened AuthModel
  import Responses

  const MissingFields := BadRequest("All fields are required")
  const BadEmail := BadRequest("Invalid email format")
  const ShortPassword := BadRequest("Password must be at least 8 characters long")
  const BadSubdomain := BadRequest("Invalid subdomain format. Use lowercase letters, numbers, and hyphens only")
  const MissingCredentials := BadRequest("Email and password are required")
  const LoggedOut := "Logged out successfully"

  // ---------------------------------------------------------------- registerTenant

  predicate AllGiven(body: Body)
  {
    && Truthy(Get(body, "tenantName")) && Truthy(Get(body, "subdomain")) && Truthy(Get(body, "adminEmail"))
    && Truthy(Get(body, "adminPassword")) && Truthy(Get(body, "adminFullName"))
  }

  /** The registration checks, in order: each tests the value as sent, or the text it prints
      as where a pattern is tested. */
  predicate RegistrationPasses(body: Body, numberText: real -> string)
  {
    && AllGiven(body)
    && EmailValueOk(Get(body, "adminEmail"), numberText)
    && LongEnough(Get(body, "adminPassword"))
    && IsSubdomain(Printed(Get(body, "subdomain").value, numberText))
  }

  /** All five fields are strings. */
  predicate AllText(body: Body)
  {
    && Get(body, "tenantName").Some? && Get(body, "tenantName").value.Str?
    && Get(body, "subdomain").Some? && Get(body, "subdomain").value.Str?
    && Get(body, "adminEmail").Some? && Get(body, "adminEmail").value.Str?
    && Get(body, "adminPassword").Some? && Get(body, "adminPassword").value.Str?
    && Get(body, "adminFullName").Some? && Get(body, "adminFullName").value.Str?
  }

  /** `POST /api/auth/register-tenant` before the model: five truthy fields, the e-mail
      pattern, the password length, then the subdomain pattern, each pattern tested on the text
      the value prints as (`numberText` prints numbers). `Ok(Some(..))` carries the five strings
      exactly as sent. A request that passes every check with a field that is not a string
      (a subdomain of `5` or `true`, an e-mail in an array) gives `Ok(None)`: the database
      refuses it once the model uses it. */
  function ValidateRegisterTenant(body: Body, numberText: real -> string): (r: Result<Option<Registration>>)
    ensures !AllGiven(body) ==> r == Err(MissingFields)
    ensures (AllGiven(body) && !EmailValueOk(Get(body, "adminEmail"), numberText)) ==> r == Err(BadEmail)
    ensures (AllGiven(body) && EmailValueOk(Get(body, "adminEmail"), numberText) &&
             !LongEnough(Get(body, "adminPassword"))) ==> r == Err(ShortPassword)
    ensures (AllGiven(body) && EmailValueOk(Get(body, "adminEmail"), numberText) &&
             LongEnough(Get(body, "adminPassword")) &&
             !IsSubdomain(Printed(Get(body, "subdomain").value, numberText))) ==> r == Err(BadSubdomain)
    ensures r.Ok? <==> RegistrationPasses(body, numberText)
    ensures r.Ok? ==> (r.value.Some? <==> AllText(body))
    ensures r.Ok? && r.value.Some? ==>
              && Get(body, "tenantName") == Some(Str(r.value.value.tenantName))
              && Get(body, "subdomain") == Some(Str(r.value.value.subdomain))
              && Get(body, "adminEmail") == Some(Str(r.value.value.adminEmail))
              && Get(body, "adminPassword") == Some(Str(r.value.value.adminPassword))
              && Get(body, "adminFullName") == Some(Str(r.value.value.adminFullName))
              && IsSubdomain(r.value.value.subdomain) && IsEmail(r.value.value.adminEmail)
              && Utf16Length(r.value.value.adminPassword) >= 8
  {
    var tenantName := Get(body, "tenantName");
    var subdomain := Get(body, "subdomain");
    var email := Get(body, "adminEmail");
    var password := Get(body, "adminPassword");
    var fullName := Get(body, "adminFullName");
    if !AllGiven(body) then Err(MissingFields)
    else if !EmailValueOk(email, numberText) then Err(BadEmail)
    else if !LongEnough(password) then Err(ShortPassword)
    else if !IsSubdomain(Printed(subdomain.value, numberText)) then Err(BadSubdomain)
    else if !AllText(body) then Ok(None)
    else
      Ok(Some(Registration(tenantName.value.s, subdomain.value.s, email.value.s, password.value.s,
                           fullName.value.s)))
  }

  /** The object literal a client writes for a registration. */
  function RegistrationEntries(data: Registration): (entries: seq<(string, Option<Value>)>)
    ensures DistinctEntries(entries)
  {
    [("tenantName", Some(Str(data.tenantName))),
     ("subdomain", Some(Str(data.subdomain))),
     ("adminEmail", Some(Str(data.adminEmail))),
     ("adminPassword", Some(Str(data.adminPassword))),
     ("adminFullName", Some(Str(data.adminFullName)))]
  }

  /** Each field of a sent registration reads back as the string written. */
  lemma RegistrationFields(data: Registration)
    ensures Get(Obj(RegistrationEntries(data)), "tenantName") == Some(Str(data.tenantName))
    ensures Get(Obj(RegistrationEntries(data)), "subdomain") == Some(Str(data.subdomain))
    ensures Get(Obj(RegistrationEntries(data)), "adminEmail") == Some(Str(data.adminEmail))
    ensures Get(Obj(RegistrationEntries(data)), "adminPassword") == Some(Str(data.adminPassword))
    ensures Get(Obj(RegistrationEntries(data)), "adminFullName") == Some(Str(data.adminFullName))
  {
    var entries := RegistrationEntries(data);
    ObjGetAt(entries, 0);
    ObjGetAt(entries, 1);
    ObjGetAt(entries, 2);
    ObjGetAt(entries, 3);
    ObjGetAt(entries, 4);
  }

  /** A body whose five fields are the strings of a valid registration is accepted as that
      registration. */
  lemma RegistrationAccepted(body: Body, data: Registration, numberText: real -> string)
    requires data.tenantName != "" && data.adminFullName != ""
    requires IsSubdomain(data.subdomain) && IsEmail(data.adminEmail) && Utf16Length(data.adminPassword) >= 8
    requires Get(body, "tenantName") == Some(Str(data.tenantName))
    requires Get(body, "subdomain") == Some(Str(data.subdomain))
    requires Get(body, "adminEmail") == Some(Str(data.adminEmail))
    requires Get(body, "adminPassword") == Some(Str(data.adminPassword))
    requires Get(body, "adminFullName") == Some(Str(data.adminFullName))
    ensures ValidateRegisterTenant(body, numberText) == Ok(Some(data))
  {
    assert data.subdomain != "" by { SubdomainPatternIsShape(data.subdomain); }
    assert data.adminEmail != "" by { EmailPatternIsShape(data.adminEmail); }
    assert data.adminPassword != "";
    assert Truthy(Get(body, "tenantName"));
    assert Truthy(Get(body, "subdomain"));
    assert Truthy(Get(body, "adminEmail"));
    assert Truthy(Get(body, "adminPassword"));
    assert Truthy(Get(body, "adminFullName"));
    assert AllGiven(body);
    assert AllText(body);
  }

  /** A registration with a non-empty name, a well-formed subdomain and e-mail and a long
      enough password survives being sent and checked unchanged. */
  lemma RegisterTenantRoundTrip(data: Registration, numberText: real -> string)
    requires data.tenantName != "" && data.adminFullName != ""
    requires IsSubdomain(data.subdomain) && IsEmail(data.adminEmail) && Utf16Length(data.adminPassword) >= 8
    ensures ValidateRegisterTenant(Obj(RegistrationEntries(data)), numberText) == Ok(Some(data))
  {
    RegistrationFields(data);
    RegistrationAccepted(Obj(RegistrationEntries(data)), data, numberText);
  }

  // ---------------------------------------------------------------- login

  datatype Credentials = Credentials(email: string, password: string, tenantSubdomain: Option<string>)

  /** `POST /api/auth/login` before the model: a truthy e-mail and password. `Ok(Some(..))`
      carries them and the subdomain as sent; a truthy value that is not a string in any of
      the three gives `Ok(None)`. */
  function ValidateLogin(body: Body): (r: Result<Option<Credentials>>)
    ensures r.Err? <==> !Truthy(Get(body, "email")) || !Truthy(Get(body, "password"))
    ensures r.Err? ==> r.error == MissingCredentials
    ensures r.Ok? && r.value.Some? <==>
              && Truthy(Get(body, "email")) && Get(body, "email").value.Str?
              && Truthy(Get(body, "password")) && Get(body, "password").value.Str?
              && (Truthy(Get(body, "tenantSubdomain")) ==> Get(body, "tenantSubdomain").value.Str?)
    ensures r.Ok? && r.value.Some? ==>
              && Get(body, "email") == Some(Str(r.value.value.email)) && r.value.value.email != ""
              && Get(body, "password") == Some(Str(r.value.value.password)) && r.value.value.password != ""
              && (Given(r.value.value.tenantSubdomain) <==> Truthy(Get(body, "tenantSubdomain")))
              && (Given(r.value.value.tenantSubdomain) ==>
                    Get(body, "tenantSubdomain") == Some(Str(r.value.value.tenantSubdomain.value)))
  {
    var email := Get(body, "email");
    var password := Get(body, "password");
    var subdomain := Get(body, "tenantSubdomain");
    if !Truthy(email) || !Truthy(password) then Err(MissingCredentials)
    else if !email.value.Str? || !password.value.Str? || (Truthy(subdomain) && !subdomain.value.Str?) then Ok(None)
    else Ok(Some(Credentials(email.value.s, password.value.s, TextArg(subdomain))))
  }

  // ---------------------------------------------------------------- logout

  /** `POST /api/auth/logout`: nothing is checked or changed on the server; the answer is a
      200 success with a message and no data. */
  function Logout(): (r: Responses.Envelope<bool>)
    ensures r.status == 200 && r.success && r.message == Some(LoggedOut) && r.data.None?
    ensures Responses.Keys(r) == ["success", "message"]
  {
    Responses.Success(Responses.Arg.Null, Responses.Given(LoggedOut))
  }
}
