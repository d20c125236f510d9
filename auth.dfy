/** Session helpers (src/lib/auth.ts): who is signed in, and their role as the
    identity provider's public metadata records it. */
module Auth {
  import opened Common

  /** The signed-in user record (`currentUser()`); only its role metadata matters here. */
  datatype SessionUser = SessionUser(roleMeta: Option<string>)

  /** What the request's session yields: the user id (`auth()`) and the user record (`currentUser()`). */
  datatype Session = Session(userId: Option<UserId>, user: Option<SessionUser>)

  const NotSignedIn: Reason := Message("Niet ingelogd")
  const AdminsOnly: Reason := Message("Geen toegang — alleen voor beheerders")

  /** A user id is present and non-empty (`!userId` is false). */
  predicate SignedIn(s: Session) {
    Truthy(s.userId)
  }

  /** `getCurrentUserId`: throws on a missing or empty user id. */
  function GetCurrentUserId(s: Session): Try<UserId> {
    if !SignedIn(s) then Threw(NotSignedIn) else Ok(s.userId.value)
  }

  /** The metadata role, "member" when none is set. */
  function GetUserRole(s: Session): Try<string> {
    if s.user.None? then Threw(NotSignedIn) else Ok(s.user.value.roleMeta.GetOr("member"))
  }

  function IsAdmin(s: Session): Try<bool> {
    match GetUserRole(s)
    case Threw(e) => Threw(e)
    case Ok(role) => Ok(role == "admin")
  }

  function RequireAdmin(s: Session): Try<UserId> {
    match GetCurrentUserId(s)
    case Threw(e) => Threw(e)
    case Ok(uid) =>
      match GetUserRole(s)
      case Threw(e) => Threw(e)
      case Ok(role) => if role != "admin" then Threw(AdminsOnly) else Ok(uid)
  }

  /** `getCurrentUserId` throws exactly when the session's user id is missing
      or empty, and otherwise returns that id. */
  lemma CurrentUserIdThrowsIffSignedOut(s: Session)
    ensures GetCurrentUserId(s).Threw? <==> s.userId.None? || s.userId.value == ""
    ensures GetCurrentUserId(s).Ok? ==> GetCurrentUserId(s).value == s.userId.value
  {
  }

  /** The role defaults to "member" when the metadata has none. */
  lemma RoleDefaultsToMember(s: Session)
    requires s.user.Some? && s.user.value.roleMeta.None?
    ensures GetUserRole(s) == Ok("member") && IsAdmin(s) == Ok(false)
  {
  }

  /** `isAdmin` holds exactly when the role is "admin". */
  lemma IsAdminIffAdminRole(s: Session)
    requires s.user.Some?
    ensures IsAdmin(s) == Ok(s.user.value.roleMeta == Some("admin"))
  {
  }

  /** `requireAdmin` returns the caller's id if and only if the caller is signed in
      and is an admin; in every other case it throws. */
  lemma RequireAdminIffAdmin(s: Session)
    ensures RequireAdmin(s).Ok? <==> s.userId.Some? && s.userId.value != "" && IsAdmin(s) == Ok(true)
    ensures RequireAdmin(s).Ok? ==> RequireAdmin(s).value == s.userId.value
  {
  }
}
