/** The onboarding request body after JSON parsing, the destructuring defaults the
    handler applies to it, and its required-field check. */
module Request {

  /** A JSON value a request field may hold. */
  datatype Json = Null | Str(s: string)

  /** A field of the parsed body: missing from the object, or present with a value. */
  datatype Field = Absent | Present(value: Json)

  /** JavaScript truthiness of a field: `undefined`, `null` and `""` are falsy. */
  predicate Truthy(f: Field): (b: bool)
    ensures b <==> f != Absent && f != Present(Null) && f != Present(Str(""))
  {
    f.Present? && f.value.Str? && f.value.s != ""
  }

  datatype Request = Request(
    email: Field,
    firstName: Field,
    lastName: Field,
    username: Field,
    employeeId: Field,
    departmentId: Field,
    defaultScheduleId: Field,
    defaultShiftId: Field,
    scheduleAnchorDate: Field,
    role: Field)

  /** The request a body of `{}` gives: every field absent. */
  const EmptyRequest := Request(Absent, Absent, Absent, Absent, Absent, Absent, Absent, Absent, Absent, Absent)

  /** The role a staff member gets when the request names none. */
  const DefaultRole: Json := Str("staff")

  /** Destructuring with defaults: `username = firstName` and `role = "staff"` take
      effect only for a field that is absent, never for `null` or `""`. */
  function ApplyDefaults(req: Request): (r: Request)
    ensures r == req.(username := r.username, role := r.role)
    ensures req.username.Present? ==> r.username == req.username
    ensures req.username.Absent? ==> r.username == req.firstName
    ensures r.role.Present?
    ensures req.role.Present? ==> r.role == req.role
    ensures req.role.Absent? ==> r.role.value == DefaultRole
  {
    req.(username := if req.username.Absent? then req.firstName else req.username,
         role := if req.role.Absent? then Present(DefaultRole) else req.role)
  }

  /** The five fields the handler insists on, checked on the defaulted request. */
  predicate HasRequiredFields(req: Request): (b: bool)
    ensures b <==> forall f :: f in [req.email, req.firstName, req.lastName, req.username, req.employeeId] ==>
      f.Present? && f.value.Str? && f.value.s != ""
  {
    Truthy(req.email) && Truthy(req.firstName) && Truthy(req.lastName)
    && Truthy(req.username) && Truthy(req.employeeId)
  }

  /** A request the handler goes on with: defaulted and with every required field. */
  predicate Accepted(req: Request) {
    HasRequiredFields(req) && req.role.Present?
  }

  /** Validation after defaulting: the request is accepted exactly when email, first
      name, last name and employee id are non-empty strings and the username is a
      non-empty string or, being absent, inherits a non-empty first name. */
  lemma {:induction false} AcceptedIff(raw: Request)
    ensures Accepted(ApplyDefaults(raw)) <==>
      && Truthy(raw.email) && Truthy(raw.firstName) && Truthy(raw.lastName)
      && Truthy(raw.employeeId)
      && (raw.username.Absent? || Truthy(raw.username))
  {
  }

  /** An explicitly supplied username is never replaced, so an explicit `""` or `null`
      fails validation even when the first name is present. */
  lemma ExplicitUsernameKept(raw: Request)
    requires raw.username.Present?
    ensures ApplyDefaults(raw).username == raw.username
    ensures !Truthy(raw.username) ==> !HasRequiredFields(ApplyDefaults(raw))
  {
  }

  /** An empty body (`req.body || "{}"`) never passes validation. */
  lemma EmptyRequestRejected()
    ensures !HasRequiredFields(ApplyDefaults(EmptyRequest))
  {
  }
}
