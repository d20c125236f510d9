/** In-app notifications (src/lib/actions/notifications.ts): read-state
    transitions scoped to the owner, and the role broadcasts that insert one row
    per recipient while never notifying the acting user. */
module Notifications {
  import opened Common
  import opened Store
  import opened Auth

  /** `getUserList({ limit: 100 })` returns at most the first 100 users. */
  const ListLimit: nat := 100

  function Listed(users: seq<IdentityUser>): (r: seq<IdentityUser>) {
    if |users| <= ListLimit then users else users[..ListLimit]
  }

  predicate IsAdminUser(u: IdentityUser) {
    u.roleMeta == Some("admin")
  }

  /** Ids of the listed users that are not admins, the actor left out, in listing order. */
  function MemberIds(users: seq<IdentityUser>, actor: UserId): seq<UserId> {
    if users == [] then []
    else (if !IsAdminUser(users[0]) && users[0].id != actor then [users[0].id] else []) + MemberIds(users[1..], actor)
  }

  /** Ids of the listed admins, the actor left out, in listing order. */
  function AdminIds(users: seq<IdentityUser>, actor: UserId): seq<UserId> {
    if users == [] then []
    else (if IsAdminUser(users[0]) && users[0].id != actor then [users[0].id] else []) + AdminIds(users[1..], actor)
  }

  /** Ids of all listed users except the actor. */
  function OthersIds(users: seq<IdentityUser>, actor: UserId): seq<UserId> {
    if users == [] then []
    else (if users[0].id != actor then [users[0].id] else []) + OthersIds(users[1..], actor)
  }

  /** A member recipient is exactly a listed non-admin other than the actor. */
  lemma {:induction false} MemberIdsExact(users: seq<IdentityUser>, actor: UserId, x: UserId)
    ensures x in MemberIds(users, actor) <==>
            x != actor && exists k | 0 <= k < |users| :: users[k].id == x && !IsAdminUser(users[k])
  {
    if users != [] {
      MemberIdsExact(users[1..], actor, x);
      if exists k | 0 <= k < |users[1..]| :: users[1..][k].id == x && !IsAdminUser(users[1..][k]) {
        var k :| 0 <= k < |users[1..]| && users[1..][k].id == x && !IsAdminUser(users[1..][k]);
        assert users[k + 1] == users[1..][k];
      }
      if exists k | 0 <= k < |users| :: users[k].id == x && !IsAdminUser(users[k]) {
        var k :| 0 <= k < |users| && users[k].id == x && !IsAdminUser(users[k]);
        if k > 0 { assert users[1..][k - 1] == users[k]; }
      }
    }
  }

  /** An admin recipient is exactly a listed admin other than the actor. */
  lemma {:induction false} AdminIdsExact(users: seq<IdentityUser>, actor: UserId, x: UserId)
    ensures x in AdminIds(users, actor) <==>
            x != actor && exists k | 0 <= k < |users| :: users[k].id == x && IsAdminUser(users[k])
  {
    if users != [] {
      AdminIdsExact(users[1..], actor, x);
      if exists k | 0 <= k < |users[1..]| :: users[1..][k].id == x && IsAdminUser(users[1..][k]) {
        var k :| 0 <= k < |users[1..]| && users[1..][k].id == x && IsAdminUser(users[1..][k]);
        assert users[k + 1] == users[1..][k];
      }
      if exists k | 0 <= k < |users| :: users[k].id == x && IsAdminUser(users[k]) {
        var k :| 0 <= k < |users| && users[k].id == x && IsAdminUser(users[k]);
        if k > 0 { assert users[1..][k - 1] == users[k]; }
      }
    }
  }

  /** The actor receives no notification from either broadcast. */
  lemma ActorNeverRecipient(users: seq<IdentityUser>, actor: UserId)
    ensures actor !in MemberIds(users, actor) && actor !in AdminIds(users, actor)
  {
    MemberIdsExact(users, actor, actor);
    AdminIdsExact(users, actor, actor);
  }

  /** The members/admins split partitions everybody else: every listed user
      other than the actor lands in exactly one of the two lists. */
  lemma {:induction false} RoleSplitPartitions(users: seq<IdentityUser>, actor: UserId)
    ensures multiset(MemberIds(users, actor)) + multiset(AdminIds(users, actor)) == multiset(OthersIds(users, actor))
    ensures |MemberIds(users, actor)| + |AdminIds(users, actor)| == |OthersIds(users, actor)|
  {
    if users != [] {
      RoleSplitPartitions(users[1..], actor);
    }
  }

  /** `markAsRead`: sets `read` on the rows with that id owned by `user`. */
  function ReadOne(rows: seq<Notification>, id: nat, user: UserId): seq<Notification> {
    if rows == [] then []
    else [if rows[0].id == id && rows[0].userId == user then rows[0].(read := true) else rows[0]]
         + ReadOne(rows[1..], id, user)
  }

  /** `markAllAsRead`: sets `read` on every unread row of `user`. */
  function ReadAll(rows: seq<Notification>, user: UserId): seq<Notification> {
    if rows == [] then []
    else [if rows[0].userId == user && !rows[0].read then rows[0].(read := true) else rows[0]]
         + ReadAll(rows[1..], user)
  }

  /** Row by row, `markAsRead` touches only the caller's row with that id, and only its read flag. */
  lemma {:induction false} ReadOneScoped(rows: seq<Notification>, id: nat, user: UserId, i: nat)
    requires i < |rows|
    ensures |ReadOne(rows, id, user)| == |rows|
    ensures rows[i].id == id && rows[i].userId == user ==> ReadOne(rows, id, user)[i] == rows[i].(read := true)
    ensures !(rows[i].id == id && rows[i].userId == user) ==> ReadOne(rows, id, user)[i] == rows[i]
  {
    if i > 0 {
      ReadOneScoped(rows[1..], id, user, i - 1);
    } else if |rows| > 1 {
      ReadOneScoped(rows[1..], id, user, 0);
    }
  }

  /** Row by row, `markAllAsRead` marks every row of the caller read and changes nothing else. */
  lemma {:induction false} ReadAllScoped(rows: seq<Notification>, user: UserId, i: nat)
    requires i < |rows|
    ensures |ReadAll(rows, user)| == |rows|
    ensures rows[i].userId == user ==> ReadAll(rows, user)[i] == rows[i].(read := true)
    ensures rows[i].userId != user ==> ReadAll(rows, user)[i] == rows[i]
  {
    if i > 0 {
      ReadAllScoped(rows[1..], user, i - 1);
    } else if |rows| > 1 {
      ReadAllScoped(rows[1..], user, 0);
    }
  }

  /** Marking everything read twice is the same as doing it once. */
  lemma {:induction false} ReadAllIdempotent(rows: seq<Notification>, user: UserId)
    ensures ReadAll(ReadAll(rows, user), user) == ReadAll(rows, user)
  {
    if rows != [] {
      ReadAllIdempotent(rows[1..], user);
    }
  }

  method MarkAsRead(db: Db, session: Session, notificationId: nat) returns (r: ActionResult)
    modifies db`notifications
    ensures r == (if SignedIn(session) then Success else Failure(NotSignedIn))
    ensures db.notifications ==
      (if SignedIn(session) then ReadOne(old(db.notifications), notificationId, session.userId.value)
       else old(db.notifications))
  {
    var uid := GetCurrentUserId(session);
    if uid.Threw? {
      return Failure(uid.reason);
    }
    db.notifications := ReadOne(db.notifications, notificationId, uid.value);
    r := Success;
  }

  method MarkAllAsRead(db: Db, session: Session) returns (r: ActionResult)
    modifies db`notifications
    ensures r == (if SignedIn(session) then Success else Failure(NotSignedIn))
    ensures db.notifications ==
      (if SignedIn(session) then ReadAll(old(db.notifications), session.userId.value)
       else old(db.notifications))
  {
    var uid := GetCurrentUserId(session);
    if uid.Threw? {
      return Failure(uid.reason);
    }
    db.notifications := ReadAll(db.notifications, uid.value);
    r := Success;
  }

  /** The recipients of `notifyMembers`, given the provider's answer (None: the listing threw). */
  function MemberRecipients(listing: Option<seq<IdentityUser>>, actor: UserId): seq<UserId> {
    if listing.None? then [] else MemberIds(Listed(listing.value), actor)
  }

  /** The recipients of `notifyAdmins`, given the provider's answer (None: the listing threw). */
  function AdminRecipients(listing: Option<seq<IdentityUser>>, actor: UserId): seq<UserId> {
    if listing.None? then [] else AdminIds(Listed(listing.value), actor)
  }

  /** `notifyMembers`: one row per non-admin listed user other than the actor;
      a failing listing inserts nothing and is not reported to the caller. */
  method NotifyMembers(db: Db, listing: Option<seq<IdentityUser>>, d: Draft)
    modifies db`notifications, db`nextNotificationId
    ensures db.notifications ==
      old(db.notifications) + NewRows(MemberRecipients(listing, d.actorId), d, old(db.nextNotificationId))
    ensures db.nextNotificationId == old(db.nextNotificationId) + |MemberRecipients(listing, d.actorId)|
  {
    if listing.None? {
      return;
    }
    var memberIds := MemberIds(Listed(listing.value), d.actorId);
    if |memberIds| == 0 {
      return;
    }
    CreateNotifications(db, memberIds, d);
  }

  /** `notifyAdmins`: one row per listed admin other than the actor. */
  method NotifyAdmins(db: Db, listing: Option<seq<IdentityUser>>, d: Draft)
    modifies db`notifications, db`nextNotificationId
    ensures db.notifications ==
      old(db.notifications) + NewRows(AdminRecipients(listing, d.actorId), d, old(db.nextNotificationId))
    ensures db.nextNotificationId == old(db.nextNotificationId) + |AdminRecipients(listing, d.actorId)|
  {
    if listing.None? {
      return;
    }
    var adminIds := AdminIds(Listed(listing.value), d.actorId);
    if |adminIds| == 0 {
      return;
    }
    CreateNotifications(db, adminIds, d);
  }

  /** Only the first 100 listed users are ever considered. */
  lemma {:induction false} BeyondLimitIgnored(users: seq<IdentityUser>, actor: UserId, x: UserId)
    requires x in MemberRecipients(Some(users), actor) || x in AdminRecipients(Some(users), actor)
    ensures exists k | 0 <= k < |users| && k < ListLimit :: users[k].id == x
  {
    var listed := Listed(users);
    MemberIdsExact(listed, actor, x);
    AdminIdsExact(listed, actor, x);
    var k :| 0 <= k < |listed| && listed[k].id == x;
    assert users[k] == listed[k];
  }
}
