/** The staff profile document the handler stores, and the access grants attached
    to it. */
module Profile {
  import opened Request

  /** Appwrite permission actions used on the profile. */
  datatype Action = Read | Update | Delete

  /** Who a permission is granted to: one user account, or the members of a team,
      each given by its id. */
  datatype Grantee = User(id: nat) | Team(teamId: string)

  datatype Permission = Permission(action: Action, grantee: Grantee)

  /** The id of the team that administers staff profiles. */
  const AdminTeam := "admin"

  /** The lifecycle status every new profile starts in. */
  const Onboarding := "onboarding"

  datatype StaffProfile = StaffProfile(
    userId: nat,
    email: string,
    firstName: string,
    lastName: string,
    username: string,
    employeeId: string,
    departmentId: Json,
    role: Json,
    status: string,
    defaultScheduleId: Json,
    defaultShiftId: Json,
    scheduleAnchorDate: Json)

  /** `value || null`: a falsy field (absent, `null` or `""`) is stored as `null`,
      anything else as the value supplied. */
  function OrNull(f: Field): (v: Json)
    ensures v.Null? <==> !Truthy(f)
    ensures v.Str? ==> f == Present(v) && v.s != ""
  {
    if Truthy(f) then f.value else Null
  }

  /** The profile the handler creates for an accepted request, linked to account `userId`. */
  function BuildProfile(req: Request, userId: nat): (p: StaffProfile)
    requires Accepted(req)
    ensures p.status == Onboarding && p.userId == userId
    ensures Present(Str(p.email)) == req.email && Present(Str(p.firstName)) == req.firstName
    ensures Present(Str(p.lastName)) == req.lastName && Present(Str(p.username)) == req.username
    ensures Present(Str(p.employeeId)) == req.employeeId
    ensures p.email != "" && p.firstName != "" && p.lastName != "" && p.username != "" && p.employeeId != ""
    ensures Present(p.role) == req.role
    ensures p.departmentId.Null? <==> !Truthy(req.departmentId)
    ensures p.defaultScheduleId.Null? <==> !Truthy(req.defaultScheduleId)
    ensures p.defaultShiftId.Null? <==> !Truthy(req.defaultShiftId)
    ensures p.scheduleAnchorDate.Null? <==> !Truthy(req.scheduleAnchorDate)
    ensures p.departmentId.Str? ==> req.departmentId == Present(p.departmentId)
    ensures p.defaultScheduleId.Str? ==> req.defaultScheduleId == Present(p.defaultScheduleId)
    ensures p.defaultShiftId.Str? ==> req.defaultShiftId == Present(p.defaultShiftId)
    ensures p.scheduleAnchorDate.Str? ==> req.scheduleAnchorDate == Present(p.scheduleAnchorDate)
  {
    StaffProfile(
      userId := userId,
      email := req.email.value.s,
      firstName := req.firstName.value.s,
      lastName := req.lastName.value.s,
      username := req.username.value.s,
      employeeId := req.employeeId.value.s,
      departmentId := OrNull(req.departmentId),
      role := req.role.value,
      status := Onboarding,
      defaultScheduleId := OrNull(req.defaultScheduleId),
      defaultShiftId := OrNull(req.defaultShiftId),
      scheduleAnchorDate := OrNull(req.scheduleAnchorDate))
  }

  /** Whether a permission list lets `who` perform `action`. */
  predicate Allows(grants: seq<Permission>, action: Action, who: Grantee) {
    Permission(action, who) in grants
  }

  /** The grants on a new profile: the staff member may read it, and the admin team
      may read, update and delete it. Nobody else gets anything. */
  function StaffPermissions(userId: nat): (grants: seq<Permission>)
    ensures |grants| == 4
    ensures forall i, j :: 0 <= i < j < |grants| ==> grants[i] != grants[j]
    ensures forall g :: g in grants ==> g == Permission(Read, User(userId)) || g.grantee == Team(AdminTeam)
  {
    [ Permission(Read, User(userId)),
      Permission(Read, Team(AdminTeam)),
      Permission(Update, Team(AdminTeam)),
      Permission(Delete, Team(AdminTeam)) ]
  }

  /** The staff member can read their own profile but cannot change or delete it;
      the admin team can do all three; any other user or team can do nothing. */
  lemma StaffPermissionsAccess(userId: nat, action: Action, who: Grantee)
    ensures Allows(StaffPermissions(userId), action, who) <==>
      (who == User(userId) && action == Read) || who == Team(AdminTeam)
  {
    var grants := StaffPermissions(userId);
    if who == Team(AdminTeam) {
      match action
      case Read => assert grants[1] == Permission(action, who);
      case Update => assert grants[2] == Permission(action, who);
      case Delete => assert grants[3] == Permission(action, who);
    } else if who == User(userId) && action == Read {
      assert grants[0] == Permission(action, who);
    }
  }
}
