/** Calendar-feed tokens (src/lib/actions/calendar.ts): each user has at most
    one token (the table's unique key is the user id); it is created on first
    request and replaced on demand. The store-generated token value is the
    parameter `generated`. Both actions throw when nobody is signed in. */
module CalendarTokens {
  import opened Common
  import opened Store
  import opened Auth

  /** `calendarToken.findUnique({ where: { userId } })`. */
  function TokenOf(tokens: seq<CalendarToken>, userId: UserId): Option<string> {
    if tokens == [] then None
    else if tokens[0].userId == userId then Some(tokens[0].token)
    else TokenOf(tokens[1..], userId)
  }

  /** A user's token is found exactly when a row of theirs exists, and it is that row's token. */
  lemma {:induction false} TokenOfExact(tokens: seq<CalendarToken>, userId: UserId)
    ensures TokenOf(tokens, userId).Some? <==> exists i | 0 <= i < |tokens| :: tokens[i].userId == userId
    ensures TokenOf(tokens, userId).Some? ==> CalendarToken(userId, TokenOf(tokens, userId).value) in tokens
  {
    if tokens != [] {
      TokenOfExact(tokens[1..], userId);
      if exists i | 0 <= i < |tokens| :: tokens[i].userId == userId {
        var i :| 0 <= i < |tokens| && tokens[i].userId == userId;
        if i > 0 { assert tokens[1..][i - 1] == tokens[i]; }
      }
      if exists i | 0 <= i < |tokens[1..]| :: tokens[1..][i].userId == userId {
        var i :| 0 <= i < |tokens[1..]| && tokens[1..][i].userId == userId;
        assert tokens[i + 1] == tokens[1..][i];
      }
    }
  }

  /** The table after `getOrCreateCalendarToken` and the token it returns. */
  function GetOrCreate(tokens: seq<CalendarToken>, userId: UserId, generated: string): (seq<CalendarToken>, string) {
    match TokenOf(tokens, userId)
    case Some(t) => (tokens, t)
    case None => (tokens + [CalendarToken(userId, generated)], generated)
  }

  /** The table after `regenerateCalendarToken`: the user's rows deleted, one new row added. */
  function Regenerate(tokens: seq<CalendarToken>, userId: UserId, generated: string): seq<CalendarToken> {
    Filter(tokens, (t: CalendarToken) => t.userId != userId) + [CalendarToken(userId, generated)]
  }

  /** After get-or-create the user has exactly one token, the one returned; a
      user who had one keeps it and nothing is written; the key stays unique. */
  lemma GetOrCreateExact(tokens: seq<CalendarToken>, userId: UserId, generated: string)
    requires DistinctBy(tokens, (t: CalendarToken) => t.userId)
    ensures var (after, token) := GetOrCreate(tokens, userId, generated);
      && DistinctBy(after, (t: CalendarToken) => t.userId)
      && TokenOf(after, userId) == Some(token)
      && (TokenOf(tokens, userId).Some? ==> after == tokens && token == TokenOf(tokens, userId).value)
      && (TokenOf(tokens, userId).None? ==> after == tokens + [CalendarToken(userId, generated)] && token == generated)
  {
    var (after, token) := GetOrCreate(tokens, userId, generated);
    TokenOfExact(tokens, userId);
    TokenOfExact(after, userId);
    if TokenOf(tokens, userId).None? {
      TokenOfAppend(tokens, userId, CalendarToken(userId, generated));
    }
  }

  /** Appending a row after every row of other users makes that row the one found. */
  lemma {:induction false} TokenOfAppend(tokens: seq<CalendarToken>, userId: UserId, row: CalendarToken)
    requires forall i | 0 <= i < |tokens| :: tokens[i].userId != userId
    requires row.userId == userId
    ensures TokenOf(tokens + [row], userId) == Some(row.token)
  {
    if tokens != [] {
      assert (tokens + [row])[1..] == tokens[1..] + [row];
      TokenOfAppend(tokens[1..], userId, row);
    }
  }

  /** Asking again returns the same token and writes nothing, whatever new value the store would generate. */
  lemma GetOrCreateStable(tokens: seq<CalendarToken>, userId: UserId, generated1: string, generated2: string)
    requires DistinctBy(tokens, (t: CalendarToken) => t.userId)
    ensures var (after, token) := GetOrCreate(tokens, userId, generated1);
      GetOrCreate(after, userId, generated2) == (after, token)
  {
    GetOrCreateExact(tokens, userId, generated1);
  }

  /** After regenerating, the user has exactly one token, the new one, and
      every other user's rows are as they were. */
  lemma RegenerateExact(tokens: seq<CalendarToken>, userId: UserId, generated: string)
    requires DistinctBy(tokens, (t: CalendarToken) => t.userId)
    ensures var after := Regenerate(tokens, userId, generated);
      && DistinctBy(after, (t: CalendarToken) => t.userId)
      && TokenOf(after, userId) == Some(generated)
      && (forall i | 0 <= i < |after| && after[i].userId == userId :: i == |after| - 1)
      && (forall t: CalendarToken | t.userId != userId :: t in after <==> t in tokens)
  {
    var kept := Filter(tokens, (t: CalendarToken) => t.userId != userId);
    FilterKeepsDistinct(tokens, (t: CalendarToken) => t.userId != userId, (t: CalendarToken) => t.userId);
    TokenOfAppend(kept, userId, CalendarToken(userId, generated));
  }

  /** `getOrCreateCalendarToken`. */
  method GetOrCreateCalendarToken(db: Db, session: Session, generated: string) returns (r: Try<string>)
    requires db.TokensValid()
    modifies db`calendarTokens
    ensures db.TokensValid()
    ensures !SignedIn(session) ==> r == Threw(NotSignedIn) && db.calendarTokens == old(db.calendarTokens)
    ensures SignedIn(session) ==>
      var (after, token) := GetOrCreate(old(db.calendarTokens), session.userId.value, generated);
      r == Ok(token) && db.calendarTokens == after
  {
    var uid := GetCurrentUserId(session);
    if uid.Threw? {
      return Threw(uid.reason);
    }
    var userId := uid.value;
    GetOrCreateExact(db.calendarTokens, userId, generated);
    var existing := TokenOf(db.calendarTokens, userId);
    if existing.Some? {
      return Ok(existing.value);
    }
    db.calendarTokens := db.calendarTokens + [CalendarToken(userId, generated)];
    r := Ok(generated);
  }

  /** `regenerateCalendarToken`. */
  method RegenerateCalendarToken(db: Db, session: Session, generated: string) returns (r: Try<string>)
    requires db.TokensValid()
    modifies db`calendarTokens
    ensures db.TokensValid()
    ensures !SignedIn(session) ==> r == Threw(NotSignedIn) && db.calendarTokens == old(db.calendarTokens)
    ensures SignedIn(session) ==>
      r == Ok(generated) && db.calendarTokens == Regenerate(old(db.calendarTokens), session.userId.value, generated)
  {
    var uid := GetCurrentUserId(session);
    if uid.Threw? {
      return Threw(uid.reason);
    }
    var userId := uid.value;
    RegenerateExact(db.calendarTokens, userId, generated);
    db.calendarTokens := Filter(db.calendarTokens, (t: CalendarToken) => t.userId != userId);
    db.calendarTokens := db.calendarTokens + [CalendarToken(userId, generated)];
    r := Ok(generated);
  }
}
