/** Comment actions (src/lib/actions/comments.ts): adding a comment tells the
    other side of the team (an admin's comment goes to the members, a member's
    to the admins) with a preview of at most 63 characters; a comment may be
    deleted by its author or by an admin. */
module CommentActions {
  import opened Common
  import opened Store
  import opened Auth
  import opened Notifications
  import opened CommentValidation

  const CommentNotFound: Reason := Message("Reactie niet gevonden")
  const NoDeleteRights: Reason := Message("Geen rechten om deze reactie te verwijderen")

  const PreviewLength: nat := 60

  /** The first 60 characters followed by "..." when the text is longer than 60. */
  function Preview(inhoud: string): string {
    if |inhoud| > PreviewLength then inhoud[..PreviewLength] + "..." else inhoud
  }

  /** A short text is its own preview; a long one is cut to its first 60
      characters plus an ellipsis; no preview is longer than 63 characters. */
  lemma PreviewShape(inhoud: string)
    ensures |Preview(inhoud)| <= PreviewLength + 3
    ensures |inhoud| <= PreviewLength ==> Preview(inhoud) == inhoud
    ensures |inhoud| > PreviewLength ==>
      |Preview(inhoud)| == PreviewLength + 3 && Preview(inhoud)[..PreviewLength] <= inhoud
      && Preview(inhoud)[PreviewLength..] == "..."
  {
  }

  /** `COMMENT_PARENT_LABELS`. */
  function ParentLabel(t: ReferenceType): string {
    match t
    case EventRef => "Evenement"
    case PostRef => "Bericht"
    case TaskRef => "Taak"
  }

  function CommentDraft(d: CommentData, userId: UserId): Draft {
    Draft(Reactie, "Nieuwe reactie op " + LowerAscii(ParentLabel(d.parentType)) + ": \"" + Preview(d.inhoud) + "\"",
          d.parentType, d.parentId, userId)
  }

  /** Who hears of a comment: the members when an admin wrote it, the admins otherwise. */
  function CommentAudience(byAdmin: bool, listing: Option<seq<IdentityUser>>, author: UserId): seq<UserId> {
    if byAdmin then MemberRecipients(listing, author) else AdminRecipients(listing, author)
  }

  /** An admin's comment reaches only non-admins, a member's only admins, and
      the author never hears of their own comment. */
  lemma CommentGoesToTheOtherSide(byAdmin: bool, users: seq<IdentityUser>, author: UserId, x: UserId)
    requires x in CommentAudience(byAdmin, Some(users), author)
    ensures x != author
    ensures exists k | 0 <= k < |users| :: users[k].id == x && IsAdminUser(users[k]) != byAdmin
  {
    var listed := Listed(users);
    if byAdmin {
      MemberIdsExact(listed, author, x);
    } else {
      AdminIdsExact(listed, author, x);
    }
    var k :| 0 <= k < |listed| && listed[k].id == x && IsAdminUser(listed[k]) != byAdmin;
    assert users[k] == listed[k];
  }

  /** When user ids are unique, nobody is in both audiences: a comment never
      notifies one person both ways. */
  lemma AudiencesDisjoint(users: seq<IdentityUser>, author: UserId, x: UserId)
    requires DistinctBy(users, (u: IdentityUser) => u.id)
    ensures x in CommentAudience(true, Some(users), author) ==> x !in CommentAudience(false, Some(users), author)
  {
    if x in CommentAudience(true, Some(users), author) {
      CommentGoesToTheOtherSide(true, users, author, x);
      var i :| 0 <= i < |users| && users[i].id == x && !IsAdminUser(users[i]);
      var listed := Listed(users);
      AdminIdsExact(listed, author, x);
      forall k | 0 <= k < |listed| && listed[k].id == x ensures !IsAdminUser(listed[k]) {
        assert listed[k] == users[k];
        assert k == i;
      }
    }
  }

  /** `addComment`. The comment is stored before the role is looked up, so a
      failing role lookup reports failure with the comment already saved. */
  method AddComment(db: Db, session: Session, form: CommentForm, freshId: Id, listing: Option<seq<IdentityUser>>)
    returns (r: ActionResult)
    modifies db`comments, db`notifications, db`nextNotificationId
    ensures !SignedIn(session) ==> r == Failure(NotSignedIn)
    ensures SignedIn(session) && ParseComment(form).None? ==> r == Failure(Invalid)
    ensures var stored := SignedIn(session) && ParseComment(form).Some? && freshId !in old(db.comments);
      && (stored ==> db.comments == old(db.comments)[freshId :=
            Comment(ParseComment(form).value.parentType, ParseComment(form).value.parentId,
                    ParseComment(form).value.inhoud, session.userId.value)])
      && (!stored ==> db.comments == old(db.comments) && r.Failure?)
      && (r.Success? <==> stored && IsAdmin(session).Ok?)
    ensures r.Failure? ==> db.notifications == old(db.notifications) && db.nextNotificationId == old(db.nextNotificationId)
    ensures r.Success? ==>
      var uid := session.userId.value;
      var audience := CommentAudience(IsAdmin(session).value, listing, uid);
      && db.notifications == old(db.notifications)
           + NewRows(audience, CommentDraft(ParseComment(form).value, uid), old(db.nextNotificationId))
      && db.nextNotificationId == old(db.nextNotificationId) + |audience|
  {
    var uid := GetCurrentUserId(session);
    if uid.Threw? {
      return Failure(uid.reason);
    }
    var userId := uid.value;
    var parsed := ParseComment(form);
    if parsed.None? {
      return Failure(Invalid);
    }
    var data := parsed.value;
    if freshId in db.comments {
      return Failure(StoreError);
    }
    db.comments := db.comments[freshId := Comment(data.parentType, data.parentId, data.inhoud, userId)];
    var admin := IsAdmin(session);
    if admin.Threw? {
      return Failure(admin.reason);
    }
    if admin.value {
      NotifyMembers(db, listing, CommentDraft(data, userId));
    } else {
      NotifyAdmins(db, listing, CommentDraft(data, userId));
    }
    r := Success;
  }

  /** Whether the caller may delete the comment: its author, or an admin. */
  predicate MayDelete(c: Comment, userId: UserId, admin: bool) {
    c.auteurId == userId || admin
  }

  /** `deleteComment`: succeeds exactly when the comment exists and the
      caller is its author or an admin; otherwise nothing is deleted. */
  method DeleteComment(db: Db, session: Session, commentId: Id) returns (r: ActionResult)
    modifies db`comments
    ensures !SignedIn(session) ==> r == Failure(NotSignedIn)
    ensures SignedIn(session) && IsAdmin(session).Ok? && commentId !in old(db.comments) ==> r == Failure(CommentNotFound)
    ensures SignedIn(session) && IsAdmin(session).Ok? && commentId in old(db.comments)
            && !MayDelete(old(db.comments)[commentId], session.userId.value, IsAdmin(session).value)
            ==> r == Failure(NoDeleteRights)
    ensures r.Success? <==>
      && SignedIn(session) && IsAdmin(session).Ok? && commentId in old(db.comments)
      && MayDelete(old(db.comments)[commentId], session.userId.value, IsAdmin(session).value)
    ensures db.comments == if r.Success? then old(db.comments) - {commentId} else old(db.comments)
  {
    var uid := GetCurrentUserId(session);
    if uid.Threw? {
      return Failure(uid.reason);
    }
    var userId := uid.value;
    var admin := IsAdmin(session);
    if admin.Threw? {
      return Failure(admin.reason);
    }
    if commentId !in db.comments {
      return Failure(CommentNotFound);
    }
    var comment := db.comments[commentId];
    if comment.auteurId != userId && !admin.value {
      return Failure(NoDeleteRights);
    }
    db.comments := db.comments - {commentId};
    r := Success;
  }
}
