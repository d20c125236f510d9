/** Display-name resolution (src/lib/users.ts): de-duplicate the requested ids,
    ask the identity provider once, and derive a full name and initials for
    every user it returns. The provider's answer is a parameter. */
module UserDirectory {
  import opened Common
  import opened Store

  datatype ResolvedUser = ResolvedUser(
    id: UserId, firstName: Option<string>, lastName: Option<string>, imageUrl: string,
    fullName: string, initials: string)

  /** `[a, b].filter(Boolean).join(" ")`: the non-empty parts joined by one space. */
  function JoinNonEmpty(a: string, b: string): string {
    if a == "" then b else if b == "" then a else a + " " + b
  }

  /** The full name, "Onbekend" when both name parts are missing or empty. */
  function FullName(firstName: Option<string>, lastName: Option<string>): string {
    var joined := JoinNonEmpty(firstName.GetOr(""), lastName.GetOr(""));
    if joined == "" then "Onbekend" else joined
  }

  /** Upper-casing of one character, for the ASCII letters only. */
  function UpperAscii(c: char): char {
    if 'a' <= c <= 'z' then (c as int - 32) as char else c
  }

  /** The upper-cased first characters of the non-empty name parts, "?" when there are none. */
  function Initials(firstName: Option<string>, lastName: Option<string>): string {
    var a, b := firstName.GetOr(""), lastName.GetOr("");
    var letters := (if a != "" then [UpperAscii(a[0])] else []) + (if b != "" then [UpperAscii(b[0])] else []);
    if letters == [] then "?" else letters
  }

  /** The full name is never empty; it is "Onbekend" when both parts are
      empty, and otherwise the non-empty parts with one space between them. */
  lemma FullNameShape(firstName: Option<string>, lastName: Option<string>)
    ensures var a, b := firstName.GetOr(""), lastName.GetOr("");
      && FullName(firstName, lastName) != ""
      && (a == "" && b == "" ==> FullName(firstName, lastName) == "Onbekend")
      && (a != "" && b != "" ==> FullName(firstName, lastName) == a + " " + b)
      && (a != "" && b == "" ==> FullName(firstName, lastName) == a)
      && (a == "" && b != "" ==> FullName(firstName, lastName) == b)
  {
  }

  /** Initials have one or two characters; "?" when both parts are empty;
      otherwise their first character is the first name part's first (or else
      the last name part's first), upper-cased. */
  lemma InitialsShape(firstName: Option<string>, lastName: Option<string>)
    ensures var a, b, r := firstName.GetOr(""), lastName.GetOr(""), Initials(firstName, lastName);
      && 1 <= |r| <= 2
      && (a == "" && b == "" ==> r == "?")
      && (a != "" ==> r[0] == UpperAscii(a[0]))
      && (a == "" && b != "" ==> r == [UpperAscii(b[0])])
      && (|r| == 2 <==> a != "" && b != "")
  {
  }

  function Resolve(u: IdentityUser): ResolvedUser {
    ResolvedUser(u.id, u.firstName, u.lastName, u.imageUrl, FullName(u.firstName, u.lastName), Initials(u.firstName, u.lastName))
  }

  /** `[...new Set(ids)]`: first occurrences, in order. */
  function Dedup(ids: seq<UserId>): seq<UserId> {
    if ids == [] then []
    else
      var d := Dedup(ids[..|ids| - 1]);
      if ids[|ids| - 1] in d then d else d + [ids[|ids| - 1]]
  }

  /** De-duplication keeps exactly the ids given, each once. */
  lemma {:induction false} DedupExact(ids: seq<UserId>)
    ensures forall x :: x in Dedup(ids) <==> x in ids
    ensures forall i, j | 0 <= i < j < |Dedup(ids)| :: Dedup(ids)[i] != Dedup(ids)[j]
    ensures |Dedup(ids)| <= |ids|
  {
    if ids != [] {
      var init := ids[..|ids| - 1];
      DedupExact(init);
      assert ids == init + [ids[|ids| - 1]];
    }
  }

  /** `resolveUsers`: `answer` is what the provider returned for the
      de-duplicated ids; `query` is the id list sent to it, None when the
      provider is not called. Each entry is keyed by its user's own id. */
  method ResolveUsers(userIds: seq<UserId>, answer: seq<IdentityUser>)
    returns (query: Option<seq<UserId>>, m: map<UserId, ResolvedUser>)
    ensures userIds == [] <==> query.None?
    ensures query.Some? ==> query.value == Dedup(userIds)
    ensures query.None? ==> m == map[]
    ensures query.Some? ==> forall j | 0 <= j < |answer| :: answer[j].id in m
    ensures query.Some? ==> forall k | k in m ::
      m[k].id == k && exists j | 0 <= j < |answer| :: answer[j].id == k && m[k] == Resolve(answer[j])
  {
    var unique := Dedup(userIds);
    DedupExact(userIds);
    if |unique| == 0 {
      return None, map[];
    }
    query := Some(unique);
    m := map[];
    var i := 0;
    while i < |answer|
      invariant 0 <= i <= |answer|
      invariant forall j | 0 <= j < i :: answer[j].id in m
      invariant forall k | k in m :: m[k].id == k && exists j | 0 <= j < i :: answer[j].id == k && m[k] == Resolve(answer[j])
    {
      var user := answer[i];
      m := m[user.id := Resolve(user)];
      i := i + 1;
    }
  }

  /** `resolveUser`: None exactly when the provider returned no user with that id. */
  method ResolveUser(userId: UserId, answer: seq<IdentityUser>) returns (r: Option<ResolvedUser>)
    ensures r.None? <==> forall j | 0 <= j < |answer| :: answer[j].id != userId
    ensures r.Some? ==> r.value.id == userId && exists j | 0 <= j < |answer| :: answer[j].id == userId && r.value == Resolve(answer[j])
  {
    var query, m := ResolveUsers([userId], answer);
    if userId in m {
      r := Some(m[userId]);
    } else {
      r := None;
    }
  }
}
