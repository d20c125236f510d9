/** POST /api/push/subscribe (src/app/api/push/subscribe/route.ts): upsert of a
    push subscription keyed by its endpoint, owned by the caller. */
module PushSubscribeRoute {
  import opened Common
  import opened Store

  /** The request body; an absent or empty field is falsy. */
  datatype SubscribeBody = SubscribeBody(endpoint: Option<string>, p256dh: Option<string>, auth: Option<string>)

  predicate HasEndpoint(subs: seq<PushSubscription>, endpoint: string) {
    exists i | 0 <= i < |subs| :: subs[i].endpoint == endpoint
  }

  /** `pushSubscription.upsert({ where: { endpoint }, create, update })`. */
  function Upsert(subs: seq<PushSubscription>, caller: UserId, endpoint: string, p256dh: string, auth: string, freshId: nat)
    : seq<PushSubscription>
  {
    if HasEndpoint(subs, endpoint) then
      seq(|subs|, i requires 0 <= i < |subs| =>
        if subs[i].endpoint == endpoint then subs[i].(userId := caller, p256dh := p256dh, auth := auth) else subs[i])
    else
      subs + [PushSubscription(freshId, caller, endpoint, p256dh, auth)]
  }

  /** After an upsert the endpoint has exactly one subscription, the caller's,
      with the submitted keys; a known endpoint adds no row, a new one adds one;
      the registry keeps its keys unique. */
  lemma UpsertOneRowPerEndpoint(subs: seq<PushSubscription>, caller: UserId, endpoint: string, p256dh: string, auth: string, freshId: nat)
    requires DistinctBy(subs, (s: PushSubscription) => s.endpoint)
    requires DistinctBy(subs, (s: PushSubscription) => s.id)
    requires forall i | 0 <= i < |subs| :: subs[i].id < freshId
    ensures var r := Upsert(subs, caller, endpoint, p256dh, auth, freshId);
      && DistinctBy(r, (s: PushSubscription) => s.endpoint)
      && DistinctBy(r, (s: PushSubscription) => s.id)
      && (exists i | 0 <= i < |r| :: r[i].endpoint == endpoint && r[i].userId == caller && r[i].p256dh == p256dh && r[i].auth == auth)
      && |r| == (if HasEndpoint(subs, endpoint) then |subs| else |subs| + 1)
  {
    var r := Upsert(subs, caller, endpoint, p256dh, auth, freshId);
    if HasEndpoint(subs, endpoint) {
      var k :| 0 <= k < |subs| && subs[k].endpoint == endpoint;
      assert r[k].endpoint == endpoint && r[k].userId == caller;
    } else {
      assert r[|subs|].endpoint == endpoint;
    }
  }

  /** Subscriptions with another endpoint are untouched by an upsert. */
  lemma UpsertOthersUnchanged(subs: seq<PushSubscription>, caller: UserId, endpoint: string, p256dh: string, auth: string, freshId: nat, s: PushSubscription)
    requires s.endpoint != endpoint
    ensures s in Upsert(subs, caller, endpoint, p256dh, auth, freshId) <==> s in subs
  {
    var r := Upsert(subs, caller, endpoint, p256dh, auth, freshId);
    if s in subs {
      var k :| 0 <= k < |subs| && subs[k] == s;
      assert HasEndpoint(subs, endpoint) ==> r[k] == s;
    }
    if s in r && HasEndpoint(subs, endpoint) {
      var k :| 0 <= k < |r| && r[k] == s;
      assert subs[k] == s;
    }
  }

  /** Subscribing the same endpoint again with the same keys changes nothing. */
  lemma ResubscribeIsNoOp(subs: seq<PushSubscription>, caller: UserId, endpoint: string, p256dh: string, auth: string, id1: nat, id2: nat)
    ensures var once := Upsert(subs, caller, endpoint, p256dh, auth, id1);
      Upsert(once, caller, endpoint, p256dh, auth, id2) == once
  {
    var once := Upsert(subs, caller, endpoint, p256dh, auth, id1);
    if HasEndpoint(subs, endpoint) {
      var k :| 0 <= k < |subs| && subs[k].endpoint == endpoint;
      assert once[k].endpoint == endpoint;
    } else {
      assert once[|subs|].endpoint == endpoint;
    }
  }

  /** The route: 401 without a signed-in user, 400 on a body lacking endpoint or
      keys, otherwise the upsert and 200; the registry changes only in that case. */
  method Post(db: Db, caller: Option<UserId>, body: SubscribeBody) returns (status: int)
    requires db.PushValid()
    modifies db`pushSubs, db`nextSubId
    ensures db.PushValid()
    ensures !Truthy(caller) ==> status == 401
    ensures Truthy(caller) && !(Truthy(body.endpoint) && Truthy(body.p256dh) && Truthy(body.auth)) ==> status == 400
    ensures status != 200 ==> db.pushSubs == old(db.pushSubs) && db.nextSubId == old(db.nextSubId)
    ensures status == 200 <==> Truthy(caller) && Truthy(body.endpoint) && Truthy(body.p256dh) && Truthy(body.auth)
    ensures status == 200 ==>
      db.pushSubs == Upsert(old(db.pushSubs), caller.value, body.endpoint.value, body.p256dh.value, body.auth.value, old(db.nextSubId))
  {
    if !Truthy(caller) {
      return 401;
    }
    if !Truthy(body.endpoint) || !Truthy(body.p256dh) || !Truthy(body.auth) {
      return 400;
    }
    var endpoint, p256dh, auth := body.endpoint.value, body.p256dh.value, body.auth.value;
    UpsertOneRowPerEndpoint(db.pushSubs, caller.value, endpoint, p256dh, auth, db.nextSubId);
    var created := !HasEndpoint(db.pushSubs, endpoint);
    db.pushSubs := Upsert(db.pushSubs, caller.value, endpoint, p256dh, auth, db.nextSubId);
    if created {
      db.nextSubId := db.nextSubId + 1;
    }
    status := 200;
  }
}

/** POST /api/push/unsubscribe (src/app/api/push/unsubscribe/route.ts): deletes
    the caller's subscriptions for one endpoint. */
module PushUnsubscribeRoute {
  import opened Common
  import opened Store

  datatype UnsubscribeBody = UnsubscribeBody(endpoint: Option<string>)

  /** `deleteMany({ where: { userId, endpoint } })`. */
  function RemoveMatching(subs: seq<PushSubscription>, caller: UserId, endpoint: string): seq<PushSubscription> {
    Filter(subs, (s: PushSubscription) => !(s.userId == caller && s.endpoint == endpoint))
  }

  /** Exactly the subscriptions matching both the caller and the endpoint go;
      another user's subscription to that endpoint survives. */
  lemma RemoveMatchingExact(subs: seq<PushSubscription>, caller: UserId, endpoint: string, s: PushSubscription)
    requires s in subs
    ensures s in RemoveMatching(subs, caller, endpoint) <==> !(s.userId == caller && s.endpoint == endpoint)
  {
    var k :| 0 <= k < |subs| && subs[k] == s;
  }

  /** Unsubscribing twice is the same as once (and an absent endpoint is a no-op). */
  lemma RemoveMatchingIdempotent(subs: seq<PushSubscription>, caller: UserId, endpoint: string)
    ensures RemoveMatching(RemoveMatching(subs, caller, endpoint), caller, endpoint) == RemoveMatching(subs, caller, endpoint)
  {
    var r := RemoveMatching(subs, caller, endpoint);
    var p := (s: PushSubscription) => !(s.userId == caller && s.endpoint == endpoint);
    FilterSameOnElements(r, p, (s: PushSubscription) => true);
    FilterAll(r);
  }

  /** The route: 401 without a signed-in user, 400 without an endpoint,
      otherwise the deletion and 200 even when nothing matched. */
  method Post(db: Db, caller: Option<UserId>, body: UnsubscribeBody) returns (status: int)
    requires db.PushValid()
    modifies db`pushSubs
    ensures db.PushValid()
    ensures status == (if !Truthy(caller) then 401 else if !Truthy(body.endpoint) then 400 else 200)
    ensures db.pushSubs ==
      (if status == 200 then RemoveMatching(old(db.pushSubs), caller.value, body.endpoint.value) else old(db.pushSubs))
  {
    if !Truthy(caller) {
      return 401;
    }
    if !Truthy(body.endpoint) {
      return 400;
    }
    var p := (s: PushSubscription) => !(s.userId == caller.value && s.endpoint == body.endpoint.value);
    FilterKeepsDistinct(db.pushSubs, p, (s: PushSubscription) => s.id);
    FilterKeepsDistinct(db.pushSubs, p, (s: PushSubscription) => s.endpoint);
    db.pushSubs := RemoveMatching(db.pushSubs, caller.value, body.endpoint.value);
    status := 200;
  }
}
