/** `errorHandler`: the last middleware, turning whatever a handler threw into a status and a
    message. */
module ErrorHandler {
  import opened Types

  /** The parts of a thrown error the handler looks at: `name`, `code`, `statusCode`, `message`,
      and the messages of a validation error's `issues`. An absent or zero `statusCode` and an
      empty message are the falsy cases. */
  datatype Thrown = Thrown(name: string, code: Option<string>, statusCode: Option<int>, message: string, issues: seq<string>)

  /** The status and message sent for `err`. */
  function Handle(err: Thrown): (r: ApiError)
    ensures err.name == "JsonWebTokenError" ==> r == ApiError(401, "Invalid token")
    ensures err.name == "TokenExpiredError" ==> r == ApiError(401, "Token expired")
    ensures err.name == "ZodError" ==> r == ApiError(400, "Validation error: " + Join(err.issues, ", "))
    ensures NameMatched(err.name) ==> r.status in {400, 401}
    ensures !NameMatched(err.name) && err.code == Some("P2002") ==> r == UniqueViolation
    ensures !NameMatched(err.name) && err.code == Some("P2025") ==> r == ApiError(404, "Record not found")
    ensures !NameMatched(err.name) && !CodeMatched(err.code) ==>
      r.status == (if err.statusCode.Some? && err.statusCode.value != 0 then err.statusCode.value else 500)
      && r.message == (if err.message != "" then err.message else "Internal server error")
  {
    if err.name == "JsonWebTokenError" then ApiError(401, "Invalid token")
    else if err.name == "TokenExpiredError" then ApiError(401, "Token expired")
    else if err.name == "ZodError" then ApiError(400, "Validation error: " + Join(err.issues, ", "))
    else if err.code == Some("P2002") then ApiError(409, "Unique constraint violation")
    else if err.code == Some("P2025") then ApiError(404, "Record not found")
    else
      var status := if err.statusCode.None? || err.statusCode.value == 0 then 500 else err.statusCode.value;
      var message := if err.message == "" then "Internal server error" else err.message;
      ApiError(status, message)
  }

  predicate NameMatched(name: string)
  {
    name in {"JsonWebTokenError", "TokenExpiredError", "ZodError"}
  }

  predicate CodeMatched(code: Option<string>)
  {
    code == Some("P2002") || code == Some("P2025")
  }

  /** How the models throw a domain error: a plain `Error` carrying its status. */
  function Raise(e: ApiError): Thrown
  {
    Thrown("Error", None, Some(e.status), e.message, [])
  }

  /** Every error the models raise reaches the client with its own status and message. */
  lemma DomainErrorsPassThrough(e: ApiError)
    requires e.status != 0 && e.message != ""
    ensures Handle(Raise(e)) == e
  {
  }

  /** The client library's error for a write that breaks a foreign key (code P2003). The handler
      names no such code, so it falls through to the default. */
  function ForeignKeyError(message: string): Thrown
  {
    Thrown("PrismaClientKnownRequestError", Some("P2003"), None, message, [])
  }

  /** What the client receives when the database refuses a write for a foreign key. */
  function ReferenceRefused(message: string): (r: ApiError)
    ensures r.status == 500
    ensures r.message == if message == "" then "Internal server error" else message
  {
    Handle(ForeignKeyError(message))
  }

  /** What the database client throws when a query argument has the wrong type or range: no
      name the handler knows, and no code. */
  function ValidationError(message: string): Thrown
  {
    Thrown("PrismaClientValidationError", None, None, message, [])
  }

  /** What the client receives when the database client refuses a query's arguments. */
  function QueryRefused(message: string): (r: ApiError)
    ensures r.status == 500
    ensures r.message == if message == "" then "Internal server error" else message
  {
    Handle(ValidationError(message))
  }

  /** A name check wins over any code, status and message the error carries, and a code wins
      over any status and message. */
  lemma Precedence(err: Thrown, code: Option<string>, statusCode: Option<int>, message: string)
    ensures NameMatched(err.name) ==>
              Handle(err) == Handle(err.(code := code, statusCode := statusCode, message := message))
    ensures !NameMatched(err.name) && CodeMatched(err.code) ==>
              Handle(err) == Handle(err.(statusCode := statusCode, message := message))
  {
  }
}
