/** Role administration (src/lib/actions/users.ts): an admin sets another
    user's role in the identity provider's public metadata, but may not take
    away their own admin role. */
module UserRoles {
  import opened Common
  import opened Store
  import opened Auth
  import opened Notifications

  datatype Role = AdminRole | MemberRole

  function RoleName(r: Role): string {
    match r
    case AdminRole => "admin"
    case MemberRole => "member"
  }

  const OwnAdminRole: Reason := Message("Je kunt je eigen beheerdersrol niet verwijderen")

  predicate Known(users: seq<IdentityUser>, userId: UserId) {
    exists i | 0 <= i < |users| :: users[i].id == userId
  }

  /** `updateUserMetadata(userId, { publicMetadata: { role } })` on the provider's records. */
  function WithRole(users: seq<IdentityUser>, userId: UserId, role: Role): seq<IdentityUser> {
    seq(|users|, i requires 0 <= i < |users| =>
      if users[i].id == userId then users[i].(roleMeta := Some(RoleName(role))) else users[i])
  }

  /** The self-demotion guard: an admin's own role may only be set to admin. */
  predicate Blocked(caller: UserId, userId: UserId, role: Role) {
    userId == caller && role == MemberRole
  }

  /** After a role change the target's records carry exactly the requested
      role, is an admin exactly when that role is "admin", and every other
      record is untouched. */
  lemma WithRoleExact(users: seq<IdentityUser>, userId: UserId, role: Role, i: nat)
    requires i < |users|
    ensures |WithRole(users, userId, role)| == |users|
    ensures users[i].id == userId ==>
      WithRole(users, userId, role)[i].roleMeta == Some(RoleName(role))
      && (IsAdminUser(WithRole(users, userId, role)[i]) <==> role == AdminRole)
    ensures users[i].id != userId ==> WithRole(users, userId, role)[i] == users[i]
  {
  }

  /** Whatever role change an admin is allowed to make, they stay an admin
      themselves: the guard is what keeps an admin from locking themselves out. */
  lemma CallerKeepsAdmin(users: seq<IdentityUser>, caller: UserId, userId: UserId, role: Role)
    requires !Blocked(caller, userId, role)
    requires forall i | 0 <= i < |users| && users[i].id == caller :: IsAdminUser(users[i])
    ensures forall i | 0 <= i < |WithRole(users, userId, role)| && WithRole(users, userId, role)[i].id == caller ::
      IsAdminUser(WithRole(users, userId, role)[i])
  {
  }

  /** `setUserRole`: admins only, self-demotion refused, an unknown user is an
      error of the identity provider; only a success writes. */
  method SetUserRole(idp: IdentityProvider, session: Session, userId: UserId, role: Role) returns (r: ActionResult)
    modifies idp
    ensures RequireAdmin(session).Threw? ==> r == Failure(RequireAdmin(session).reason)
    ensures RequireAdmin(session).Ok? && Blocked(RequireAdmin(session).value, userId, role) ==> r == Failure(OwnAdminRole)
    ensures r.Success? <==>
      RequireAdmin(session).Ok? && !Blocked(RequireAdmin(session).value, userId, role) && Known(old(idp.users), userId)
    ensures idp.users == if r.Success? then WithRole(old(idp.users), userId, role) else old(idp.users)
  {
    var admin := RequireAdmin(session);
    if admin.Threw? {
      return Failure(admin.reason);
    }
    var currentUserId := admin.value;
    if userId == currentUserId && role == MemberRole {
      return Failure(OwnAdminRole);
    }
    if !Known(idp.users, userId) {
      return Failure(StoreError);
    }
    idp.users := WithRole(idp.users, userId, role);
    r := Success;
  }
}
