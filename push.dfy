/** Web-push dispatcher (src/lib/push.ts): a once-only initialisation that needs
    both VAPID keys, one send attempt per subscription of the target users, and
    removal of exactly the subscriptions whose send reported 404 or 410. The
    transport is an oracle: `outcome` says how the send to a subscription ends. */
module Push {
  import opened Common
  import opened Store

  datatype VapidKeys = VapidKeys(publicKey: Option<string>, privateKey: Option<string>)

  predicate KeysPresent(k: VapidKeys) {
    Truthy(k.publicKey) && Truthy(k.privateKey)
  }

  datatype Payload = Payload(title: string, body: string, url: Option<string>, tag: Option<string>)

  /** How `webpush.sendNotification` ended: delivered, or rejected with an optional HTTP status. */
  datatype SendOutcome = Delivered | Failed(statusCode: Option<int>)

  /** 404 and 410 mean the endpoint is gone. */
  predicate IsGone(o: SendOutcome) {
    o.Failed? && (o.statusCode == Some(404) || o.statusCode == Some(410))
  }

  /** One call of the transport: the subscription's endpoint and keys, and the payload. */
  datatype Delivery = Delivery(endpoint: string, p256dh: string, auth: string, payload: Payload)

  /** The module-level `_initialized` flag. */
  class WebPush {
    var initialized: bool

    constructor ()
      ensures !initialized
    {
      initialized := false;
    }
  }

  /** `initWebPush`: sets the flag once both keys are present; never clears it. */
  method InitWebPush(wp: WebPush, keys: VapidKeys)
    modifies wp
    ensures wp.initialized == (old(wp.initialized) || KeysPresent(keys))
  {
    if wp.initialized {
      return;
    }
    if !Truthy(keys.publicKey) || !Truthy(keys.privateKey) {
      return;
    }
    wp.initialized := true;
  }

  /** `pushSubscription.findMany({ where: { userId: { in: userIds } } })`. */
  function Targets(subs: seq<PushSubscription>, userIds: seq<UserId>): seq<PushSubscription> {
    Filter(subs, (s: PushSubscription) => s.userId in userIds)
  }

  function DeliveryOf(s: PushSubscription, payload: Payload): Delivery {
    Delivery(s.endpoint, s.p256dh, s.auth, payload)
  }

  /** Ids of the targets whose send reported the endpoint gone, in target order. */
  function ExpiredIds(targets: seq<PushSubscription>, outcome: PushSubscription -> SendOutcome): seq<nat> {
    if targets == [] then []
    else ExpiredIds(targets[..|targets| - 1], outcome)
         + (if IsGone(outcome(targets[|targets| - 1])) then [targets[|targets| - 1].id] else [])
  }

  /** The registry a dispatch should leave: every subscription except the
      targeted ones whose endpoint turned out gone. */
  function Survivors(subs: seq<PushSubscription>, userIds: seq<UserId>, outcome: PushSubscription -> SendOutcome): seq<PushSubscription> {
    Filter(subs, (s: PushSubscription) => !(s.userId in userIds && IsGone(outcome(s))))
  }

  /** `deleteMany({ where: { id: { in: ids } } })`. */
  function RemoveIds(subs: seq<PushSubscription>, ids: seq<nat>): seq<PushSubscription> {
    Filter(subs, (s: PushSubscription) => s.id !in ids)
  }

  lemma {:induction false} ExpiredIdsExact(targets: seq<PushSubscription>, outcome: PushSubscription -> SendOutcome, id: nat)
    ensures id in ExpiredIds(targets, outcome) <==>
            exists k | 0 <= k < |targets| :: targets[k].id == id && IsGone(outcome(targets[k]))
  {
    if targets != [] {
      var init := targets[..|targets| - 1];
      ExpiredIdsExact(init, outcome, id);
      if exists k | 0 <= k < |init| :: init[k].id == id && IsGone(outcome(init[k])) {
        var k :| 0 <= k < |init| && init[k].id == id && IsGone(outcome(init[k]));
        assert targets[k] == init[k];
      }
      if exists k | 0 <= k < |targets| :: targets[k].id == id && IsGone(outcome(targets[k])) {
        var k :| 0 <= k < |targets| && targets[k].id == id && IsGone(outcome(targets[k]));
        if k < |targets| - 1 { assert init[k] == targets[k]; }
      }
    }
  }

  /** Deleting by the collected ids removes exactly the targeted subscriptions
      whose send reported 404/410, given that ids are unique. */
  lemma CleanupRemovesExactlyGone(subs: seq<PushSubscription>, userIds: seq<UserId>, outcome: PushSubscription -> SendOutcome)
    requires DistinctBy(subs, (s: PushSubscription) => s.id)
    ensures RemoveIds(subs, ExpiredIds(Targets(subs, userIds), outcome)) == Survivors(subs, userIds, outcome)
  {
    var targets := Targets(subs, userIds);
    var expired := ExpiredIds(targets, outcome);
    var p := (s: PushSubscription) => s.id !in expired;
    var q := (s: PushSubscription) => !(s.userId in userIds && IsGone(outcome(s)));
    forall s | s in subs ensures p(s) == q(s) {
      ExpiredIdsExact(targets, outcome, s.id);
      if !q(s) {
        assert s in targets;
        var k :| 0 <= k < |targets| && targets[k] == s;
      }
    }
    FilterSameOnElements(subs, p, q);
  }

  /** A subscription survives a dispatch if and only if it was not targeted or
      its send did not report 404/410. */
  lemma SurvivorsExact(subs: seq<PushSubscription>, userIds: seq<UserId>, outcome: PushSubscription -> SendOutcome, s: PushSubscription)
    requires s in subs
    ensures s in Survivors(subs, userIds, outcome) <==> !(s.userId in userIds && IsGone(outcome(s)))
  {
    var k :| 0 <= k < |subs| && subs[k] == s;
  }

  /** The send loop of `sendPushToUsers`: one attempt per target, in order, each
      with the same payload; the ids of the gone endpoints are collected. A
      failure of one send does not stop the others. */
  method SendAll(targets: seq<PushSubscription>, payload: Payload, outcome: PushSubscription -> SendOutcome)
    returns (deliveries: seq<Delivery>, expiredIds: seq<nat>)
    ensures |deliveries| == |targets|
    ensures forall i | 0 <= i < |targets| :: deliveries[i] == DeliveryOf(targets[i], payload)
    ensures expiredIds == ExpiredIds(targets, outcome)
  {
    deliveries, expiredIds := [], [];
    var i := 0;
    while i < |targets|
      invariant 0 <= i <= |targets|
      invariant |deliveries| == i
      invariant forall j | 0 <= j < i :: deliveries[j] == DeliveryOf(targets[j], payload)
      invariant expiredIds == ExpiredIds(targets[..i], outcome)
    {
      var sub := targets[i];
      deliveries := deliveries + [DeliveryOf(sub, payload)];
      if IsGone(outcome(sub)) {
        expiredIds := expiredIds + [sub.id];
      }
      assert targets[..i + 1][..i] == targets[..i];
      i := i + 1;
    }
    assert targets[..i] == targets;
  }

  /** `sendPushToUsers`. */
  method SendPushToUsers(wp: WebPush, db: Db, keys: VapidKeys, userIds: seq<UserId>, payload: Payload,
                         outcome: PushSubscription -> SendOutcome)
    returns (deliveries: seq<Delivery>)
    requires db.PushValid()
    modifies wp, db`pushSubs
    ensures db.PushValid()
    ensures wp.initialized == (old(wp.initialized) || KeysPresent(keys))
    ensures !wp.initialized ==> deliveries == [] && db.pushSubs == old(db.pushSubs)
    ensures wp.initialized ==>
      && |deliveries| == |Targets(old(db.pushSubs), userIds)|
      && (forall i | 0 <= i < |deliveries| :: deliveries[i] == DeliveryOf(Targets(old(db.pushSubs), userIds)[i], payload))
      && db.pushSubs == Survivors(old(db.pushSubs), userIds, outcome)
  {
    InitWebPush(wp, keys);
    deliveries := [];
    if !wp.initialized {
      return;
    }
    var subscriptions := Targets(db.pushSubs, userIds);
    CleanupRemovesExactlyGone(db.pushSubs, userIds, outcome);
    if |subscriptions| == 0 {
      assert ExpiredIds(subscriptions, outcome) == [];
      FilterSameOnElements(db.pushSubs, (s: PushSubscription) => s.id !in [], (s: PushSubscription) => true);
      FilterAll(db.pushSubs);
      return;
    }
    var expiredIds;
    deliveries, expiredIds := SendAll(subscriptions, payload, outcome);
    if |expiredIds| > 0 {
      FilterKeepsDistinct(db.pushSubs, (s: PushSubscription) => s.id !in expiredIds, (s: PushSubscription) => s.id);
      FilterKeepsDistinct(db.pushSubs, (s: PushSubscription) => s.id !in expiredIds, (s: PushSubscription) => s.endpoint);
      db.pushSubs := RemoveIds(db.pushSubs, expiredIds);
    } else {
      FilterSameOnElements(db.pushSubs, (s: PushSubscription) => s.id !in expiredIds, (s: PushSubscription) => true);
      FilterAll(db.pushSubs);
    }
  }

  /** With no subscription for the given users nothing is sent and nothing is deleted. */
  lemma NoTargetsNoEffect(subs: seq<PushSubscription>, userIds: seq<UserId>, outcome: PushSubscription -> SendOutcome)
    requires forall s | s in subs :: s.userId !in userIds
    ensures Targets(subs, userIds) == []
    ensures Survivors(subs, userIds, outcome) == subs
  {
    var q := (s: PushSubscription) => !(s.userId in userIds && IsGone(outcome(s)));
    FilterSameOnElements(subs, q, (s: PushSubscription) => true);
    FilterAll(subs);
    FilterNone(subs, (s: PushSubscription) => s.userId in userIds);
  }
}
