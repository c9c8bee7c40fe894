/** The backend platform the handler talks to (Appwrite's account service and
    document database), reduced to what the handler can observe: the accounts,
    the staff documents, the recovery messages accepted for delivery, the log of
    calls made, and failure-injection flags that make a call fail. The platform's
    unique identifiers (`ID.unique()` asks it for one) are stood in for by natural
    numbers taken from one counter shared by accounts and documents. */
module Platform {
  import opened Profile

  datatype Option<T> = None | Some(value: T)

  /** The result of a platform call: a value, or the message of the error it throws. */
  datatype Outcome<T> = Ok(value: T) | Err(message: string)

  datatype Account = Account(id: nat, email: string, password: string, name: string)

  datatype Document = Document(id: nat, profile: StaffProfile, permissions: seq<Permission>)

  /** One remote call, as the platform sees it. */
  datatype Call =
    | ListByEmployeeId(employeeId: string)
    | CreateAccount(email: string, name: string)
    | CreateDocument(profile: StaffProfile)
    | CreateRecovery(email: string)

  /** For each kind of call, the message of the error it fails with, if it fails. */
  datatype Faults = Faults(
    list: Option<string>,
    createAccount: Option<string>,
    createDocument: Option<string>,
    createRecovery: Option<string>)

  const NoFaults := Faults(None, None, None, None)

  /** The platform's own error for an account whose email is already registered. */
  const EmailTaken := "A user with the same id, email, or phone already exists in this project."

  datatype State = State(
    accounts: seq<Account>,
    documents: seq<Document>,
    recoveries: seq<string>,
    calls: seq<Call>,
    nextId: nat,
    faults: Faults)

  /** Every identifier handed out so far is below the counter, so the next one is fresh. */
  predicate WellFormed(s: State) {
    && (forall a :: a in s.accounts ==> a.id < s.nextId)
    && (forall d :: d in s.documents ==> d.id < s.nextId)
  }

  /** The number of staff documents whose employee id is `employeeId` (`total` of a
      `Query.equal("employeeId", …)` listing). */
  function CountWithEmployeeId(docs: seq<Document>, employeeId: string): (n: nat)
    ensures n <= |docs|
    ensures n == 0 <==> forall d :: d in docs ==> d.profile.employeeId != employeeId
  {
    if docs == [] then 0
    else (if docs[0].profile.employeeId == employeeId then 1 else 0)
         + CountWithEmployeeId(docs[1..], employeeId)
  }

  predicate EmailRegistered(accounts: seq<Account>, email: string) {
    exists a :: a in accounts && a.email == email
  }

  /** `listDocuments` filtered on the employee id: read-only apart from the call log. */
  function ListStep(s: State, employeeId: string): (out: (Outcome<nat>, State))
    ensures out.1 == s.(calls := s.calls + [ListByEmployeeId(employeeId)])
    ensures out.0.Ok? <==> s.faults.list.None?
    ensures out.0.Err? ==> out.0.message == s.faults.list.value
    ensures out.0.Ok? ==>
      (out.0.value == 0 <==> forall d :: d in s.documents ==> d.profile.employeeId != employeeId)
  {
    var s' := s.(calls := s.calls + [ListByEmployeeId(employeeId)]);
    match s.faults.list
    case Some(m) => (Err(m), s')
    case None => (Ok(CountWithEmployeeId(s.documents, employeeId)), s')
  }

  /** `account.create`: adds one account under a fresh id, unless the call fails or
      the email is already registered. */
  function CreateAccountStep(s: State, email: string, password: string, name: string): (out: (Outcome<Account>, State))
    ensures out.1.nextId >= s.nextId && (WellFormed(s) ==> WellFormed(out.1))
    ensures out.0.Ok? && WellFormed(s) ==>
      && (forall a :: a in s.accounts ==> a.id != out.0.value.id)
      && (forall d :: d in s.documents ==> d.id != out.0.value.id)
      && out.0.value.id < out.1.nextId
  {
    var s' := s.(calls := s.calls + [CreateAccount(email, name)]);
    if s.faults.createAccount.Some? then (Err(s.faults.createAccount.value), s')
    else if EmailRegistered(s.accounts, email) then (Err(EmailTaken), s')
    else
      var a := Account(s.nextId, email, password, name);
      (Ok(a), s'.(accounts := s.accounts + [a], nextId := s.nextId + 1))
  }

  /** `databases.createDocument`: appends one document under a fresh id, unless the call fails. */
  function CreateDocumentStep(s: State, profile: StaffProfile, permissions: seq<Permission>): (out: (Outcome<Document>, State))
    ensures out.1.nextId >= s.nextId && (WellFormed(s) ==> WellFormed(out.1))
    ensures out.0.Ok? && WellFormed(s) ==>
      && (forall a :: a in s.accounts ==> a.id != out.0.value.id)
      && (forall d :: d in s.documents ==> d.id != out.0.value.id)
  {
    var s' := s.(calls := s.calls + [CreateDocument(profile)]);
    if s.faults.createDocument.Some? then (Err(s.faults.createDocument.value), s')
    else
      var d := Document(s.nextId, profile, permissions);
      (Ok(d), s'.(documents := s.documents + [d], nextId := s.nextId + 1))
  }

  /** `account.createRecovery`: accepts a recovery message for delivery, unless the call fails. */
  function RecoveryStep(s: State, email: string): (out: (Outcome<()>, State))
    ensures out.1 == s.(calls := out.1.calls, recoveries := out.1.recoveries)
    ensures out.1.calls == s.calls + [CreateRecovery(email)]
    ensures out.0.Ok? <==> s.faults.createRecovery.None?
    ensures out.0.Err? ==> out.0.message == s.faults.createRecovery.value
    ensures out.1.recoveries == if out.0.Ok? then s.recoveries + [email] else s.recoveries
  {
    var s' := s.(calls := s.calls + [CreateRecovery(email)]);
    if s.faults.createRecovery.Some? then (Err(s.faults.createRecovery.value), s')
    else (Ok(()), s'.(recoveries := s.recoveries + [email]))
  }

  /** The platform as the handler's client objects reach it. */
  class Backend {
    var accounts: seq<Account>
    var documents: seq<Document>
    var recoveries: seq<string>
    var calls: seq<Call>
    var nextId: nat
    const faults: Faults

    function Current(): State
      reads this
    {
      State(accounts, documents, recoveries, calls, nextId, faults)
    }

    /** An empty project whose calls fail as `faults` says. */
    constructor (faults: Faults)
      ensures Current() == State([], [], [], [], 0, faults)
      ensures WellFormed(Current())
    {
      accounts, documents, recoveries, calls := [], [], [], [];
      nextId := 0;
      this.faults := faults;
    }

    method ListDocuments(employeeId: string) returns (total: Outcome<nat>)
      requires WellFormed(Current())
      modifies this
      ensures WellFormed(Current())
      ensures (total, Current()) == ListStep(old(Current()), employeeId)
    {
      calls := calls + [ListByEmployeeId(employeeId)];
      match faults.list
      case Some(m) => total := Err(m);
      case None => total := Ok(CountWithEmployeeId(documents, employeeId));
    }

    method CreateAccount(email: string, password: string, name: string) returns (account: Outcome<Account>)
      requires WellFormed(Current())
      modifies this
      ensures WellFormed(Current())
      ensures (account, Current()) == CreateAccountStep(old(Current()), email, password, name)
    {
      calls := calls + [Call.CreateAccount(email, name)];
      if faults.createAccount.Some? {
        account := Err(faults.createAccount.value);
      } else if EmailRegistered(accounts, email) {
        account := Err(EmailTaken);
      } else {
        var a := Account(nextId, email, password, name);
        accounts := accounts + [a];
        nextId := nextId + 1;
        account := Ok(a);
      }
    }

    method CreateDocument(profile: StaffProfile, permissions: seq<Permission>) returns (document: Outcome<Document>)
      requires WellFormed(Current())
      modifies this
      ensures WellFormed(Current())
      ensures (document, Current()) == CreateDocumentStep(old(Current()), profile, permissions)
    {
      calls := calls + [Call.CreateDocument(profile)];
      if faults.createDocument.Some? {
        document := Err(faults.createDocument.value);
      } else {
        var d := Document(nextId, profile, permissions);
        documents := documents + [d];
        nextId := nextId + 1;
        document := Ok(d);
      }
    }

    method CreateRecovery(email: string) returns (accepted: Outcome<()>)
      requires WellFormed(Current())
      modifies this
      ensures WellFormed(Current())
      ensures (accepted, Current()) == RecoveryStep(old(Current()), email)
    {
      calls := calls + [Call.CreateRecovery(email)];
      if faults.createRecovery.Some? {
        accepted := Err(faults.createRecovery.value);
      } else {
        recoveries := recoveries + [email];
        accepted := Ok(());
      }
    }
  }
}
