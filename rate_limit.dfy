/** The chat route's fixed-window rate limiter (src/app/api/chat/route.ts):
    an in-memory map from user id to a call count and the end of the user's
    current one-hour window; a window is replaced lazily by the first call
    after it ends. Only the limiter and the 401/429 gate in front of the
    assistant are modelled. */
module ChatRateLimit {
  import opened Common

  const MaxMessagesPerHour: nat := 50
  const WindowMs: int := 60 * 60 * 1000

  datatype Entry = Entry(count: int, resetAt: int)

  /** The verdict of one call and the map it leaves. */
  datatype Verdict = Verdict(allowed: bool, entries: map<UserId, Entry>)

  /** `checkRateLimit(userId)` at instant `now`. */
  function Check(entries: map<UserId, Entry>, userId: UserId, now: int): Verdict {
    if userId !in entries || now > entries[userId].resetAt then
      Verdict(true, entries[userId := Entry(1, now + WindowMs)])
    else if entries[userId].count >= MaxMessagesPerHour then
      Verdict(false, entries)
    else
      Verdict(true, entries[userId := entries[userId].(count := entries[userId].count + 1)])
  }

  /** Every stored count lies in 1..50. */
  ghost predicate CountsInRange(entries: map<UserId, Entry>) {
    forall u | u in entries :: 1 <= entries[u].count <= MaxMessagesPerHour
  }

  /** A call is denied exactly when the caller's window is still open (its end
      included) and already holds 50 calls, and a denied call changes nothing;
      an allowed call inside the window adds one and keeps the window's end. */
  lemma CheckCharacterised(entries: map<UserId, Entry>, userId: UserId, now: int)
    ensures var v := Check(entries, userId, now);
      && (!v.allowed <==> userId in entries && now <= entries[userId].resetAt && entries[userId].count >= MaxMessagesPerHour)
      && (!v.allowed ==> v.entries == entries)
      && (v.allowed && userId in entries && now <= entries[userId].resetAt ==>
            v.entries[userId] == Entry(entries[userId].count + 1, entries[userId].resetAt))
      && (userId !in entries || now > entries[userId].resetAt ==> v.entries[userId] == Entry(1, now + WindowMs))
  {
  }

  /** Other users' entries are never touched, and the counts stay in 1..50. */
  lemma CheckKeepsOthersAndRange(entries: map<UserId, Entry>, userId: UserId, now: int)
    requires CountsInRange(entries)
    ensures var v := Check(entries, userId, now);
      && CountsInRange(v.entries)
      && v.entries.Keys == entries.Keys + {userId}
      && forall u | u in entries && u != userId :: v.entries[u] == entries[u]
  {
  }

  /** How many of a user's calls at the instants `times`, in order, are allowed. */
  function AllowedCount(entries: map<UserId, Entry>, userId: UserId, times: seq<int>): nat
    decreases |times|
  {
    if times == [] then 0
    else
      var v := Check(entries, userId, times[0]);
      (if v.allowed then 1 else 0) + AllowedCount(v.entries, userId, times[1..])
  }

  /** Inside an open window (every call no later than its end) at most
      50 − count further calls are allowed. */
  lemma {:induction false} WindowBound(entries: map<UserId, Entry>, userId: UserId, times: seq<int>)
    requires userId in entries && 1 <= entries[userId].count <= MaxMessagesPerHour
    requires forall i | 0 <= i < |times| :: times[i] <= entries[userId].resetAt
    ensures AllowedCount(entries, userId, times) <= MaxMessagesPerHour - entries[userId].count
  {
    if times != [] {
      var v := Check(entries, userId, times[0]);
      assert v.entries[userId].resetAt == entries[userId].resetAt;
      WindowBound(v.entries, userId, times[1..]);
    }
  }

  /** A call that opens a window, followed by any calls up to the window's end,
      gets at most 50 calls through. */
  lemma AtMostFiftyPerWindow(entries: map<UserId, Entry>, userId: UserId, now: int, later: seq<int>)
    requires userId !in entries || now > entries[userId].resetAt
    requires forall i | 0 <= i < |later| :: later[i] <= now + WindowMs
    ensures AllowedCount(entries, userId, [now] + later) <= MaxMessagesPerHour
  {
    var v := Check(entries, userId, now);
    assert ([now] + later)[1..] == later;
    WindowBound(v.entries, userId, later);
  }

  /** The module-level `rateLimits` map. */
  class RateLimiter {
    var entries: map<UserId, Entry>

    constructor ()
      ensures entries == map[]
    {
      entries := map[];
    }

    ghost predicate Valid()
      reads this
    {
      CountsInRange(entries)
    }

    method CheckRateLimit(userId: UserId, now: int) returns (allowed: bool)
      requires Valid()
      modifies this
      ensures Valid()
      ensures allowed == Check(old(entries), userId, now).allowed
      ensures entries == Check(old(entries), userId, now).entries
    {
      CheckKeepsOthersAndRange(entries, userId, now);
      if userId !in entries || now > entries[userId].resetAt {
        entries := entries[userId := Entry(1, now + WindowMs)];
        return true;
      }
      var entry := entries[userId];
      if entry.count >= MaxMessagesPerHour {
        return false;
      }
      entries := entries[userId := entry.(count := entry.count + 1)];
      allowed := true;
    }
  }

  /** The gate at the top of POST /api/chat: 401 without a signed-in user
      (the limiter is not consulted), 429 when the limiter refuses, 200 when
      the request may go on to the assistant. */
  method Gate(limiter: RateLimiter, caller: Option<UserId>, now: int) returns (status: int)
    requires limiter.Valid()
    modifies limiter
    ensures limiter.Valid()
    ensures !Truthy(caller) ==> status == 401 && limiter.entries == old(limiter.entries)
    ensures Truthy(caller) ==>
      var v := Check(old(limiter.entries), caller.value, now);
      limiter.entries == v.entries && status == (if v.allowed then 200 else 429)
  {
    if !Truthy(caller) {
      return 401;
    }
    var allowed := limiter.CheckRateLimit(caller.value, now);
    if !allowed {
      return 429;
    }
    status := 200;
  }
}
