/** Post actions (src/lib/actions/posts.ts): admin-only create, update and
    delete of posts with their attachments. An update asks the blob store to
    delete exactly the old attachment URLs no longer submitted, then replaces
    the post's file rows by the submitted list; blob deletion failures are
    ignored. The blob store is outside the model: the actions return the list
    of URLs they ask it to delete. The `files` field arrives already parsed
    from its JSON text (None: absent or empty). */
module PostActions {
  import opened Common
  import opened Store
  import opened Auth
  import opened Notifications
  import opened PostValidation

  datatype UploadedFile = UploadedFile(url: string, fileName: string, fileSize: int, fileType: string)

  /** The submitted form: the schema's fields, the raw `gepind` field and the attachment list. */
  datatype PostSubmission = PostSubmission(
    titel: Option<string>, inhoud: Option<string>, categorie: Option<string>, gepind: Option<string>,
    files: Option<seq<UploadedFile>>)

  /** `formData.get("gepind") === "true"`. */
  function Pinned(field: Option<string>): bool {
    field == Some("true")
  }

  /** `filesJson ? JSON.parse(filesJson) : []`. */
  function Attachments(s: PostSubmission): seq<UploadedFile> {
    s.files.GetOr([])
  }

  function FormOf(s: PostSubmission): PostForm {
    PostForm(s.titel, s.inhoud, s.categorie, Some(Pinned(s.gepind)))
  }

  /** A post is pinned exactly when the field is the string "true" (so never
      by default), and a missing attachment list is an empty one. */
  lemma SubmissionDefaults(s: PostSubmission)
    ensures ParsePost(FormOf(s)).Some? ==> (ParsePost(FormOf(s)).value.gepind <==> s.gepind == Some("true"))
    ensures s.files.None? ==> Attachments(s) == []
  {
  }

  function FileRows(postId: Id, files: seq<UploadedFile>): seq<PostFile> {
    seq(|files|, i requires 0 <= i < |files| => PostFile(postId, files[i].url, files[i].fileName, files[i].fileSize, files[i].fileType))
  }

  function FilesOf(rows: seq<PostFile>, postId: Id): seq<PostFile> {
    Filter(rows, (f: PostFile) => f.postId == postId)
  }

  function OtherFiles(rows: seq<PostFile>, postId: Id): seq<PostFile> {
    Filter(rows, (f: PostFile) => f.postId != postId)
  }

  /** `new Set(files.map(f => f.url))`. */
  function UrlSet(files: seq<UploadedFile>): set<string> {
    set k | 0 <= k < |files| :: files[k].url
  }

  /** The blob URLs the update's loop asks to delete: the old files' URLs not in the new list, in order. */
  function StaleUrls(existing: seq<PostFile>, files: seq<UploadedFile>): seq<string> {
    if existing == [] then []
    else
      var last := existing[|existing| - 1];
      StaleUrls(existing[..|existing| - 1], files) + (if last.url in UrlSet(files) then [] else [last.url])
  }

  /** A URL is deleted exactly when an old attachment had it and the new list does not. */
  lemma {:induction false} StaleUrlsExact(existing: seq<PostFile>, files: seq<UploadedFile>, u: string)
    ensures u in StaleUrls(existing, files) <==>
      (exists i | 0 <= i < |existing| :: existing[i].url == u) && !(exists k | 0 <= k < |files| :: files[k].url == u)
  {
    if existing != [] {
      var init := existing[..|existing| - 1];
      StaleUrlsExact(init, files, u);
      if exists i | 0 <= i < |init| :: init[i].url == u {
        var i :| 0 <= i < |init| && init[i].url == u;
        assert existing[i] == init[i];
      }
      if exists i | 0 <= i < |existing| :: existing[i].url == u {
        var i :| 0 <= i < |existing| && existing[i].url == u;
        if i < |init| { assert init[i] == existing[i]; }
      }
      if u in UrlSet(files) {
        var k :| 0 <= k < |files| && files[k].url == u;
      }
    }
  }

  /** After the replacement the post's file rows are exactly the submitted
      list, in order, and every other post's rows are as they were. */
  lemma FilesReplaced(rows: seq<PostFile>, postId: Id, files: seq<UploadedFile>)
    ensures var after := OtherFiles(rows, postId) + FileRows(postId, files);
      FilesOf(after, postId) == FileRows(postId, files) && OtherFiles(after, postId) == OtherFiles(rows, postId)
  {
    var kept := OtherFiles(rows, postId);
    var added := FileRows(postId, files);
    var mine := (f: PostFile) => f.postId == postId;
    var theirs := (f: PostFile) => f.postId != postId;
    FilterAppend(kept, added, mine);
    FilterAppend(kept, added, theirs);
    FilterNone(kept, mine);
    FilterNone(added, theirs);
    FilterSameOnElements(added, mine, (f: PostFile) => true);
    FilterAll(added);
    FilterSameOnElements(kept, theirs, (f: PostFile) => true);
    FilterAll(kept);
  }

  function NewPostDraft(postId: Id, titel: string, author: UserId): Draft {
    Draft(NieuwBericht, "Nieuw bericht: \"" + titel + "\"", PostRef, postId, author)
  }

  /** `createPost`: admins only; the post and its file rows are written
      together and the members (never the author) are told. */
  method CreatePost(db: Db, session: Session, s: PostSubmission, freshId: Id, listing: Option<seq<IdentityUser>>)
    returns (r: ActionResult)
    modifies db`posts, db`postFiles, db`notifications, db`nextNotificationId
    ensures RequireAdmin(session).Threw? ==> r == Failure(RequireAdmin(session).reason)
    ensures RequireAdmin(session).Ok? && ParsePost(FormOf(s)).None? ==> r == Failure(Invalid)
    ensures r.Success? <==> RequireAdmin(session).Ok? && ParsePost(FormOf(s)).Some? && freshId !in old(db.posts)
    ensures r.Failure? ==>
      && db.posts == old(db.posts) && db.postFiles == old(db.postFiles)
      && db.notifications == old(db.notifications) && db.nextNotificationId == old(db.nextNotificationId)
    ensures r.Success? ==>
      var uid, d := RequireAdmin(session).value, ParsePost(FormOf(s)).value;
      && db.posts == old(db.posts)[freshId := Post(d.titel, d.inhoud, d.categorie, d.gepind, uid)]
      && db.postFiles == old(db.postFiles) + FileRows(freshId, Attachments(s))
      && db.notifications == old(db.notifications)
           + NewRows(MemberRecipients(listing, uid), NewPostDraft(freshId, d.titel, uid), old(db.nextNotificationId))
      && db.nextNotificationId == old(db.nextNotificationId) + |MemberRecipients(listing, uid)|
  {
    var admin := RequireAdmin(session);
    if admin.Threw? {
      return Failure(admin.reason);
    }
    var userId := admin.value;
    var parsed := ParsePost(FormOf(s));
    if parsed.None? {
      return Failure(Invalid);
    }
    var data := parsed.value;
    var files := Attachments(s);
    if freshId in db.posts {
      return Failure(StoreError);
    }
    db.posts := db.posts[freshId := Post(data.titel, data.inhoud, data.categorie, data.gepind, userId)];
    db.postFiles := db.postFiles + FileRows(freshId, files);
    NotifyMembers(db, listing, NewPostDraft(freshId, data.titel, userId));
    r := Success;
  }

  /** The update's blob-deletion loop: walks the old attachments in order and
      keeps the URL of each one the new list no longer has. */
  method CollectStaleUrls(existing: seq<PostFile>, files: seq<UploadedFile>) returns (urls: seq<string>)
    ensures urls == StaleUrls(existing, files)
  {
    urls := [];
    var newUrls := UrlSet(files);
    var i := 0;
    while i < |existing|
      invariant 0 <= i <= |existing|
      invariant urls == StaleUrls(existing[..i], files)
    {
      assert existing[..i + 1][..i] == existing[..i];
      if existing[i].url !in newUrls {
        urls := urls + [existing[i].url];
      }
      i := i + 1;
    }
    assert existing[..i] == existing;
  }

  /** `updatePost`: admins only. When the post exists its stale blobs are
      deleted first (failures ignored), then the post's fields and file rows
      are replaced in one transaction; a missing post deletes no blob and
      fails the transaction, which writes nothing. */
  method UpdatePost(db: Db, session: Session, id: Id, s: PostSubmission) returns (r: ActionResult, blobDeletes: seq<string>)
    modifies db`posts, db`postFiles
    ensures RequireAdmin(session).Threw? ==> r == Failure(RequireAdmin(session).reason)
    ensures RequireAdmin(session).Ok? && ParsePost(FormOf(s)).None? ==> r == Failure(Invalid)
    ensures r.Success? <==> RequireAdmin(session).Ok? && ParsePost(FormOf(s)).Some? && id in old(db.posts)
    ensures r.Failure? ==> db.posts == old(db.posts) && db.postFiles == old(db.postFiles)
    ensures blobDeletes == if r.Success? then StaleUrls(FilesOf(old(db.postFiles), id), Attachments(s)) else []
    ensures r.Success? ==>
      var d := ParsePost(FormOf(s)).value;
      && db.posts == old(db.posts)[id := old(db.posts)[id].(titel := d.titel, inhoud := d.inhoud, categorie := d.categorie, gepind := d.gepind)]
      && db.postFiles == OtherFiles(old(db.postFiles), id) + FileRows(id, Attachments(s))
  {
    blobDeletes := [];
    var admin := RequireAdmin(session);
    if admin.Threw? {
      return Failure(admin.reason), [];
    }
    var parsed := ParsePost(FormOf(s));
    if parsed.None? {
      return Failure(Invalid), [];
    }
    var data := parsed.value;
    var files := Attachments(s);
    if id !in db.posts {
      return Failure(StoreError), [];
    }
    blobDeletes := CollectStaleUrls(FilesOf(db.postFiles, id), files);
    db.postFiles := OtherFiles(db.postFiles, id);
    var post := db.posts[id];
    db.posts := db.posts[id := post.(titel := data.titel, inhoud := data.inhoud, categorie := data.categorie, gepind := data.gepind)];
    db.postFiles := db.postFiles + FileRows(id, files);
    r := Success;
  }

  /** `deletePost`: admins only; every attachment's blob is deleted (failures
      ignored), then the post with its file rows. */
  method DeletePost(db: Db, session: Session, id: Id) returns (r: ActionResult, blobDeletes: seq<string>)
    modifies db`posts, db`postFiles
    ensures RequireAdmin(session).Threw? ==> r == Failure(RequireAdmin(session).reason)
    ensures r.Success? <==> RequireAdmin(session).Ok? && id in old(db.posts)
    ensures r.Failure? ==> db.posts == old(db.posts) && db.postFiles == old(db.postFiles) && blobDeletes == []
    ensures r.Success? ==>
      var mine := FilesOf(old(db.postFiles), id);
      && |blobDeletes| == |mine| && (forall i | 0 <= i < |mine| :: blobDeletes[i] == mine[i].url)
      && db.posts == old(db.posts) - {id}
      && db.postFiles == OtherFiles(old(db.postFiles), id)
  {
    blobDeletes := [];
    var admin := RequireAdmin(session);
    if admin.Threw? {
      return Failure(admin.reason), [];
    }
    if id !in db.posts {
      return Failure(StoreError), [];
    }
    var files := FilesOf(db.postFiles, id);
    var i := 0;
    while i < |files|
      invariant 0 <= i <= |files|
      invariant |blobDeletes| == i && forall j | 0 <= j < i :: blobDeletes[j] == files[j].url
    {
      blobDeletes := blobDeletes + [files[i].url];
      i := i + 1;
    }
    db.posts := db.posts - {id};
    db.postFiles := OtherFiles(db.postFiles, id);
    r := Success;
  }
}
