/** The onboarding handler: validate the body, refuse a duplicate employee id,
    create the account with a temporary password, create the staff profile, and
    send the recovery (onboarding) email, answering 400, 409, 500 or success. */
module Handler {
  import opened Request
  import opened Profile
  import opened Password
  import opened Platform

  /** The request body: one whose reading throws (`JSON.parse` rejects it, or it is
      `null` and cannot be destructured), or the parsed fields. A missing body reads
      as `{}`, and a JSON number, string, boolean or array has none of the fields:
      both are `Parsed(EmptyRequest)`. */
  datatype Body = Malformed(message: string) | Parsed(req: Request)

  /** `{ ok: true, authUserId, staffDocId }`, or `{ error }` with an HTTP status. */
  datatype Response = Created(authUserId: nat, staffDocId: nat) | Rejected(status: nat, error: string)
  {
    function Status(): nat {
      if Created? then 200 else status
    }
  }

  const MissingFields := "Missing required fields"
  const AlreadyExists := "Employee already exists"
  const ServerErrorFallback := "Server error"

  /** The catch-all: status 500 with the error's message, or a fallback when it is empty. */
  function ServerError(message: string): (r: Response)
    ensures r.Rejected? && r.status == 500 && r.error != ""
    ensures message != "" ==> r.error == message
    ensures message == "" ==> r.error == ServerErrorFallback
  {
    Rejected(500, if message == "" then ServerErrorFallback else message)
  }

  /** The outcome of one invocation on platform state `s`, with `draws` standing for
      the 24 random choices of the temporary password. */
  function Onboard(s: State, body: Body, draws: seq<Pick>): (out: (Response, State))
    requires |draws| == DefaultLength
    // A body that cannot be read is a 500 carrying the reader's message, before any call.
    ensures body.Malformed? ==> out == (ServerError(body.message), s)
    // Validation: 400 exactly for a parsed body missing a required field, and then no call is made.
    ensures out.0.Status() == 400 <==> body.Parsed? && !HasRequiredFields(ApplyDefaults(body.req))
    ensures out.0.Status() == 400 ==> out.0.error == MissingFields && out.1 == s
    // Uniqueness guard: 409 exactly when the listing succeeds and finds the employee id,
    // and then the listing is the only call made.
    ensures out.0.Status() == 409 <==>
      && body.Parsed? && HasRequiredFields(ApplyDefaults(body.req))
      && s.faults.list.None?
      && CountWithEmployeeId(s.documents, ApplyDefaults(body.req).employeeId.value.s) > 0
    ensures out.0.Status() == 409 ==>
      out.0.error == AlreadyExists
      && out.1 == s.(calls := s.calls + [ListByEmployeeId(ApplyDefaults(body.req).employeeId.value.s)])
    // Every other failure is a 500 carrying a non-empty message.
    ensures out.0.Rejected? ==> out.0.status in {400, 409, 500} && out.0.error != ""
    // Success exactly when the request is valid and new, the email is free and no call fails.
    ensures out.0.Created? <==>
      && body.Parsed? && HasRequiredFields(ApplyDefaults(body.req))
      && s.faults == NoFaults
      && CountWithEmployeeId(s.documents, ApplyDefaults(body.req).employeeId.value.s) == 0
      && !EmailRegistered(s.accounts, ApplyDefaults(body.req).email.value.s)
    // Nothing is ever removed: at most one account and one document are appended,
    // and a new document always belongs to the new account.
    ensures out.1.faults == s.faults
    ensures out.1.accounts == s.accounts || (|out.1.accounts| == |s.accounts| + 1 && out.1.accounts[..|s.accounts|] == s.accounts)
    ensures out.1.documents == s.documents || (|out.1.documents| == |s.documents| + 1 && out.1.documents[..|s.documents|] == s.documents)
    ensures out.1.documents != s.documents ==>
      out.1.accounts != s.accounts && out.1.documents[|s.documents|].profile.userId == out.1.accounts[|s.accounts|].id
  {
    match body
    case Malformed(m) => (ServerError(m), s)
    case Parsed(raw) =>
      var req := ApplyDefaults(raw);
      if !HasRequiredFields(req) then (Rejected(400, MissingFields), s)
      else
        var (existing, s1) := ListStep(s, req.employeeId.value.s);
        if existing.Err? then (ServerError(existing.message), s1)
        else if existing.value > 0 then (Rejected(409, AlreadyExists), s1)
        else Enrol(s1, req, draws)
  }

  /** The steps after the uniqueness guard: create the account, then its profile
      document, then the recovery email, stopping at the first call that fails. */
  function Enrol(s: State, req: Request, draws: seq<Pick>): (out: (Response, State))
    requires Accepted(req) && |draws| == DefaultLength
    ensures out.0.Created? <==>
      && s.faults.createAccount.None? && s.faults.createDocument.None? && s.faults.createRecovery.None?
      && !EmailRegistered(s.accounts, req.email.value.s)
    ensures out.0.Rejected? ==> out.0.status == 500 && out.0.error != ""
    ensures out.1.faults == s.faults
    ensures out.1.accounts == s.accounts || (|out.1.accounts| == |s.accounts| + 1 && out.1.accounts[..|s.accounts|] == s.accounts)
    ensures out.1.documents == s.documents || (|out.1.documents| == |s.documents| + 1 && out.1.documents[..|s.documents|] == s.documents)
    ensures out.1.documents != s.documents ==>
      out.1.accounts != s.accounts && out.1.documents[|s.documents|].profile.userId == out.1.accounts[|s.accounts|].id
    ensures WellFormed(s) ==> WellFormed(out.1)
    ensures out.0.Created? && WellFormed(s) ==>
      && out.0.authUserId != out.0.staffDocId
      && (forall a :: a in s.accounts ==> a.id != out.0.authUserId)
      && (forall d :: d in s.documents ==> d.id != out.0.staffDocId)
  {
    var email := req.email.value.s;
    var (authUser, s1) := CreateAccountStep(s, email, RandomPassword(draws), req.firstName.value.s);
    if authUser.Err? then (ServerError(authUser.message), s1)
    else
      var userId := authUser.value.id;
      var (staffProfile, s2) := CreateDocumentStep(s1, BuildProfile(req, userId), StaffPermissions(userId));
      if staffProfile.Err? then (ServerError(staffProfile.message), s2)
      else
        var (recovery, s3) := RecoveryStep(s2, email);
        if recovery.Err? then (ServerError(recovery.message), s3)
        else (Created(userId, staffProfile.value.id), s3)
  }

  /** The handler, one remote call after another with early returns; the catch-all
      turns a failed call into a 500. */
  method Handle(backend: Backend, body: Body, draws: seq<Pick>) returns (response: Response)
    requires |draws| == DefaultLength && WellFormed(backend.Current())
    modifies backend
    ensures (response, backend.Current()) == Onboard(old(backend.Current()), body, draws)
    ensures WellFormed(backend.Current())
  {
    if body.Malformed? {
      return ServerError(body.message);
    }
    var req := ApplyDefaults(body.req);
    if !HasRequiredFields(req) {
      return Rejected(400, MissingFields);
    }
    var email, firstName, employeeId := req.email.value.s, req.firstName.value.s, req.employeeId.value.s;

    var existing := backend.ListDocuments(employeeId);
    if existing.Err? {
      return ServerError(existing.message);
    }
    if existing.value > 0 {
      return Rejected(409, AlreadyExists);
    }

    var tempPassword := RandomPassword(draws);
    var authUser := backend.CreateAccount(email, tempPassword, firstName);
    if authUser.Err? {
      return ServerError(authUser.message);
    }

    var userId := authUser.value.id;
    var staffProfile := backend.CreateDocument(BuildProfile(req, userId), StaffPermissions(userId));
    if staffProfile.Err? {
      return ServerError(staffProfile.message);
    }

    var recovery := backend.CreateRecovery(email);
    if recovery.Err? {
      return ServerError(recovery.message);
    }
    return Created(userId, staffProfile.value.id);
  }

  /** A successful invocation adds exactly the new account (with a 24-character
      password over the safe alphabet), exactly one new profile document linked to it
      with status "onboarding" and the four grants, and one recovery message; the
      response carries the two new ids. */
  lemma OnboardCreated(s: State, body: Body, draws: seq<Pick>)
    requires |draws| == DefaultLength
    requires Onboard(s, body, draws).0.Created?
    ensures var (resp, s') := Onboard(s, body, draws);
      var req := ApplyDefaults(body.req);
      && body.Parsed? && Accepted(req)
      && s'.accounts == s.accounts + [Account(resp.authUserId, req.email.value.s, RandomPassword(draws), req.firstName.value.s)]
      && s'.documents == s.documents + [Document(resp.staffDocId, BuildProfile(req, resp.authUserId), StaffPermissions(resp.authUserId))]
      && s'.recoveries == s.recoveries + [req.email.value.s]
      && |RandomPassword(draws)| == 24
      && (forall i :: 0 <= i < |RandomPassword(draws)| ==> SafeChar(RandomPassword(draws)[i]))
      && s'.documents[|s.documents|].profile.status == Onboarding
      && s'.documents[|s.documents|].profile.userId == resp.authUserId
  {
    PasswordIsSafe(draws);
  }

  /** The stored username is the first name only when the request has no username,
      and the stored role is "staff" only when the request has no role; otherwise
      both are kept exactly as supplied (the role is never validated). */
  lemma OnboardStoresDefaults(s: State, raw: Request, draws: seq<Pick>)
    requires |draws| == DefaultLength
    requires Onboard(s, Parsed(raw), draws).0.Created?
    ensures var p := Onboard(s, Parsed(raw), draws).1.documents[|s.documents|].profile;
      && Present(Str(p.username)) == (if raw.username.Absent? then raw.firstName else raw.username)
      && p.role == (if raw.role.Absent? then DefaultRole else raw.role.value)
  {
    OnboardCreated(s, Parsed(raw), draws);
  }

  /** A valid request for a new employee id, with the listing working, goes on to the
      stages after the guard on the state the listing leaves: that state differs
      from the original only in its call log. */
  lemma OnboardPassesGuard(s: State, raw: Request, draws: seq<Pick>)
    requires |draws| == DefaultLength
    requires HasRequiredFields(ApplyDefaults(raw)) && s.faults.list.None?
    requires CountWithEmployeeId(s.documents, ApplyDefaults(raw).employeeId.value.s) == 0
    ensures var s1 := ListStep(s, ApplyDefaults(raw).employeeId.value.s).1;
      && s1 == s.(calls := s1.calls)
      && Onboard(s, Parsed(raw), draws) == Enrol(s1, ApplyDefaults(raw), draws)
  {
  }

  /** A failed listing is a 500 carrying its message; the listing is the only call
      made, so nothing but the call log changes. */
  lemma ListingFailureChangesNothing(s: State, raw: Request, draws: seq<Pick>)
    requires |draws| == DefaultLength
    requires HasRequiredFields(ApplyDefaults(raw)) && s.faults.list.Some?
    ensures var (resp, s') := Onboard(s, Parsed(raw), draws);
      && resp == ServerError(s.faults.list.value)
      && s' == s.(calls := s.calls + [ListByEmployeeId(ApplyDefaults(raw).employeeId.value.s)])
  {
  }

  /** A failed account creation (a platform error, or an email already registered)
      is a 500 carrying its message, and no account or document is created. */
  lemma AccountFailureCreatesNothing(s: State, raw: Request, draws: seq<Pick>)
    requires |draws| == DefaultLength
    requires HasRequiredFields(ApplyDefaults(raw)) && s.faults.list.None?
    requires CountWithEmployeeId(s.documents, ApplyDefaults(raw).employeeId.value.s) == 0
    requires s.faults.createAccount.Some? || EmailRegistered(s.accounts, ApplyDefaults(raw).email.value.s)
    ensures var (resp, s') := Onboard(s, Parsed(raw), draws);
      && resp == ServerError(if s.faults.createAccount.Some? then s.faults.createAccount.value else EmailTaken)
      && s'.accounts == s.accounts && s'.documents == s.documents && s'.recoveries == s.recoveries
  {
  }

  /** A failed document creation is a 500 and leaves the request's new account
      behind without a profile; nothing undoes it. */
  lemma DocumentFailureOrphansAccount(s: State, raw: Request, draws: seq<Pick>)
    requires |draws| == DefaultLength
    requires HasRequiredFields(ApplyDefaults(raw)) && s.faults.list.None? && s.faults.createAccount.None?
    requires CountWithEmployeeId(s.documents, ApplyDefaults(raw).employeeId.value.s) == 0
    requires !EmailRegistered(s.accounts, ApplyDefaults(raw).email.value.s)
    requires s.faults.createDocument.Some?
    ensures var (resp, s') := Onboard(s, Parsed(raw), draws);
      var req := ApplyDefaults(raw);
      && resp == ServerError(s.faults.createDocument.value)
      && s'.accounts == s.accounts + [Account(s.nextId, req.email.value.s, RandomPassword(draws), req.firstName.value.s)]
      && s'.documents == s.documents && s'.recoveries == s.recoveries
  {
    OnboardPassesGuard(s, raw, draws);
  }

  /** Resubmitting after a failed document creation cannot recover: the orphaned
      account already holds the email, so account creation is refused. */
  lemma ResubmitAfterOrphanIsRefused(s: State, raw: Request, d1: seq<Pick>, d2: seq<Pick>)
    requires |d1| == DefaultLength && |d2| == DefaultLength
    requires HasRequiredFields(ApplyDefaults(raw)) && s.faults.list.None? && s.faults.createAccount.None?
    requires CountWithEmployeeId(s.documents, ApplyDefaults(raw).employeeId.value.s) == 0
    requires !EmailRegistered(s.accounts, ApplyDefaults(raw).email.value.s)
    requires s.faults.createDocument.Some?
    ensures Onboard(Onboard(s, Parsed(raw), d1).1, Parsed(raw), d2).0 == ServerError(EmailTaken)
  {
    DocumentFailureOrphansAccount(s, raw, d1);
    var s' := Onboard(s, Parsed(raw), d1).1;
    assert s'.accounts[|s.accounts|] in s'.accounts;
  }

  /** A failed recovery request is a 500 although the account and the profile both exist. */
  lemma RecoveryFailureKeepsProfile(s: State, raw: Request, draws: seq<Pick>)
    requires |draws| == DefaultLength
    requires HasRequiredFields(ApplyDefaults(raw))
    requires s.faults.list.None? && s.faults.createAccount.None? && s.faults.createDocument.None?
    requires CountWithEmployeeId(s.documents, ApplyDefaults(raw).employeeId.value.s) == 0
    requires !EmailRegistered(s.accounts, ApplyDefaults(raw).email.value.s)
    requires s.faults.createRecovery.Some?
    ensures var (resp, s') := Onboard(s, Parsed(raw), draws);
      var req := ApplyDefaults(raw);
      && resp == ServerError(s.faults.createRecovery.value)
      && s'.accounts == s.accounts + [Account(s.nextId, req.email.value.s, RandomPassword(draws), req.firstName.value.s)]
      && s'.documents == s.documents + [Document(s.nextId + 1, BuildProfile(req, s.nextId), StaffPermissions(s.nextId))]
      && s'.recoveries == s.recoveries
  {
    var req := ApplyDefaults(raw);
    var s1 := ListStep(s, req.employeeId.value.s).1;
    assert s1 == s.(calls := s1.calls);
    EnrolRecoveryFailure(s1, req, draws, s);
    OnboardPassesGuard(s, raw, draws);
  }

  /** The stages after the guard when only the recovery call fails, on a state that
      differs from `base` only in its call log: both creations happen, under the
      next two ids of `base`, and no recovery is recorded. */
  lemma EnrolRecoveryFailure(s: State, req: Request, draws: seq<Pick>, base: State)
    requires Accepted(req) && |draws| == DefaultLength
    requires s == base.(calls := s.calls)
    requires s.faults.createAccount.None? && s.faults.createDocument.None? && s.faults.createRecovery.Some?
    requires !EmailRegistered(s.accounts, req.email.value.s)
    ensures Enrol(s, req, draws).0 == ServerError(base.faults.createRecovery.value)
    ensures var s' := Enrol(s, req, draws).1;
      && s'.accounts == base.accounts + [Account(base.nextId, req.email.value.s, RandomPassword(draws), req.firstName.value.s)]
      && s'.documents == base.documents + [Document(base.nextId + 1, BuildProfile(req, base.nextId), StaffPermissions(base.nextId))]
      && s'.recoveries == base.recoveries
  {
    var email, pw, name := req.email.value.s, RandomPassword(draws), req.firstName.value.s;
    var a := Account(base.nextId, email, pw, name);
    var s1 := CreateAccountStep(s, email, pw, name).1;
    assert CreateAccountStep(s, email, pw, name).0 == Ok(a);
    assert s1.accounts == base.accounts + [a] && s1.nextId == base.nextId + 1 && s1.documents == base.documents;
    var p, g := BuildProfile(req, base.nextId), StaffPermissions(base.nextId);
    var s2 := CreateDocumentStep(s1, p, g).1;
    assert CreateDocumentStep(s1, p, g).0 == Ok(Document(base.nextId + 1, p, g));
    assert s2.accounts == s1.accounts && s2.documents == base.documents + [Document(base.nextId + 1, p, g)];
    assert s2.recoveries == base.recoveries;
    assert Enrol(s, req, draws).1 == RecoveryStep(s2, email).1;
  }

  /** Ids handed out by an invocation are fresh: the new account and the new document
      get ids no earlier account or document has, and the state stays well formed. */
  lemma OnboardFreshIds(s: State, body: Body, draws: seq<Pick>)
    requires |draws| == DefaultLength
    requires WellFormed(s)
    ensures var (resp, s') := Onboard(s, body, draws);
      && WellFormed(s')
      && (resp.Created? ==>
            && resp.authUserId != resp.staffDocId
            && (forall a :: a in s.accounts ==> a.id != resp.authUserId)
            && (forall d :: d in s.documents ==> d.id != resp.staffDocId))
  {
    if body.Parsed? && HasRequiredFields(ApplyDefaults(body.req)) {
      var s1 := ListStep(s, ApplyDefaults(body.req).employeeId.value.s).1;
      assert WellFormed(s1) && s1.accounts == s.accounts && s1.documents == s.documents;
    }
  }

  /** Submitting the same request again after a success is refused as a duplicate. */
  lemma SecondSubmissionConflicts(s: State, body: Body, first: seq<Pick>, second: seq<Pick>)
    requires |first| == DefaultLength && |second| == DefaultLength
    requires Onboard(s, body, first).0.Created?
    ensures Onboard(Onboard(s, body, first).1, body, second).0 == Rejected(409, AlreadyExists)
  {
    OnboardCreated(s, body, first);
    var s' := Onboard(s, body, first).1;
    var doc := s'.documents[|s.documents|];
    assert doc in s'.documents;
  }

  /** Ann Lee, employee E100, on a project with no E100 profile and no account for
      her email: success, with username "Ann", role "staff" and status "onboarding". */
  lemma AnnLeeScenario(s: State, draws: seq<Pick>)
    requires |draws| == DefaultLength
    requires s.faults == NoFaults
    requires CountWithEmployeeId(s.documents, "E100") == 0 && !EmailRegistered(s.accounts, "a@x.com")
    ensures var raw := EmptyRequest.(email := Present(Str("a@x.com")), firstName := Present(Str("Ann")),
                                     lastName := Present(Str("Lee")), employeeId := Present(Str("E100")));
      var (resp, s') := Onboard(s, Parsed(raw), draws);
      && resp.Created?
      && var p := s'.documents[|s.documents|].profile;
      && p.username == "Ann" && p.role == Str("staff") && p.status == "onboarding" && p.departmentId == Null
  {
    var raw := EmptyRequest.(email := Present(Str("a@x.com")), firstName := Present(Str("Ann")),
                             lastName := Present(Str("Lee")), employeeId := Present(Str("E100")));
    OnboardCreated(s, Parsed(raw), draws);
  }

  /** The same request handled twice on a fresh, fault-free project: the first call
      onboards Ann Lee, the second is refused as a duplicate employee. */
  method SameRequestTwice() returns (first: Response, second: Response)
    ensures first.Created? && first.Status() == 200
    ensures second == Rejected(409, AlreadyExists)
  {
    var backend := new Backend(NoFaults);
    var raw := EmptyRequest.(email := Present(Str("a@x.com")), firstName := Present(Str("Ann")),
                             lastName := Present(Str("Lee")), employeeId := Present(Str("E100")));
    var draws: seq<Pick> := seq(DefaultLength, i => 0);
    ghost var start := backend.Current();
    AnnLeeScenario(start, draws);
    first := Handle(backend, Parsed(raw), draws);
    SecondSubmissionConflicts(start, Parsed(raw), draws, draws);
    second := Handle(backend, Parsed(raw), draws);
  }
}

