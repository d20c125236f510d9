/** The birthday cron route (GET /api/cron/verjaardagen,
    src/app/api/cron/verjaardagen/route.ts): every roster member whose birth
    date falls on today's month and day is congratulated to all other roster
    members, by one VERJAARDAG notification each and a best-effort push.

    Today's calendar date is a parameter (extracting it from the clock is
    time-zone work); the push transport is the outcome oracle of `Push`. */
module BirthdayCron {
  import opened Common
  import opened Store
  import opened CronAuth
  import opened Push
  import opened UserDirectory

  datatype BirthdayResponse = Unauthorized | Done(birthdays: nat, notified: nat)

  predicate IsBirthday(m: TeamMember, today: CivilDate) {
    m.geboortedatum.Some? && m.geboortedatum.value.month == today.month && m.geboortedatum.value.day == today.day
  }

  /** The roster members with a birth date whose month and day are today's, in roster order. */
  function Birthdays(roster: seq<TeamMember>, today: CivilDate): seq<TeamMember> {
    Filter(roster, (m: TeamMember) => IsBirthday(m, today))
  }

  function ClerkIds(roster: seq<TeamMember>): seq<UserId> {
    seq(|roster|, i requires 0 <= i < |roster| => roster[i].clerkUserId)
  }

  /** Everybody on the roster except the birthday person. */
  function Recipients(allIds: seq<UserId>, person: TeamMember): seq<UserId> {
    Filter(allIds, (id: UserId) => id != person.clerkUserId)
  }

  const Cake: string := "\U{1F382}"

  /** The congratulation text: with the age when it is non-zero, the generic text otherwise. */
  function BirthdayMessage(person: TeamMember, today: CivilDate): string {
    var fullName := JoinNonEmpty(person.voornaam, person.achternaam);
    var age := if person.geboortedatum.Some? then today.year - person.geboortedatum.value.year else 0;
    if age != 0 then fullName + " is vandaag " + IntToString(age) + " jaar geworden! " + Cake
    else fullName + " is vandaag jarig! " + Cake
  }

  function BirthdayDraft(person: TeamMember, message: string): Draft {
    Draft(Verjaardag, message, EventRef, person.id, person.clerkUserId)
  }

  function BirthdayPayload(person: TeamMember, message: string): Payload {
    Payload("CrewPlanner", message, Some("/"), Some("VERJAARDAG-" + person.clerkUserId))
  }

  /** What the route writes: the notification table, the push registry and the
      push module's flag, the push transport calls, and the `notified` counter. */
  datatype Fanout = Fanout(
    notifications: seq<Notification>, nextId: nat, subs: seq<PushSubscription>, initialized: bool,
    deliveries: seq<Delivery>, notified: nat)

  function Deliveries(targets: seq<PushSubscription>, payload: Payload): seq<Delivery> {
    seq(|targets|, i requires 0 <= i < |targets| => DeliveryOf(targets[i], payload))
  }

  /** The effect of congratulating one birthday person. */
  function Greet(F: Fanout, person: TeamMember, allIds: seq<UserId>, today: CivilDate,
                 keys: VapidKeys, outcome: PushSubscription -> SendOutcome): Fanout
  {
    var recipients := Recipients(allIds, person);
    if recipients == [] then F
    else
      var message := BirthdayMessage(person, today);
      var on := F.initialized || KeysPresent(keys);
      F.(notifications := F.notifications + NewRows(recipients, BirthdayDraft(person, message), F.nextId),
         nextId := F.nextId + |recipients|,
         initialized := on,
         subs := if on then Survivors(F.subs, recipients, outcome) else F.subs,
         deliveries := F.deliveries
           + (if on then Deliveries(Targets(F.subs, recipients), BirthdayPayload(person, message)) else []),
         notified := F.notified + 1)
  }

  /** Congratulating the people of `people` in order. */
  function Greetings(F: Fanout, people: seq<TeamMember>, allIds: seq<UserId>, today: CivilDate,
                     keys: VapidKeys, outcome: PushSubscription -> SendOutcome): Fanout
  {
    if people == [] then F
    else Greet(Greetings(F, people[..|people| - 1], allIds, today, keys, outcome), people[|people| - 1], allIds, today, keys, outcome)
  }

  /** A birthday person is never among their own recipients, and every other
      roster member is. */
  lemma RecipientsExact(allIds: seq<UserId>, person: TeamMember, x: UserId)
    ensures x in Recipients(allIds, person) <==> x in allIds && x != person.clerkUserId
  {
    if x in allIds && x != person.clerkUserId {
      var k :| 0 <= k < |allIds| && allIds[k] == x;
    }
  }

  /** `notified` counts at most one per birthday person. */
  lemma {:induction false} NotifiedBounded(F: Fanout, people: seq<TeamMember>, allIds: seq<UserId>, today: CivilDate,
                                           keys: VapidKeys, outcome: PushSubscription -> SendOutcome)
    ensures F.notified <= Greetings(F, people, allIds, today, keys, outcome).notified <= F.notified + |people|
  {
    if people != [] {
      NotifiedBounded(F, people[..|people| - 1], allIds, today, keys, outcome);
    }
  }

  /** Every notification the route writes is a VERJAARDAG one whose actor is a
      birthday person and whose recipient is somebody else on the roster; rows
      already present are kept. */
  lemma {:induction false} GreetingsNotifyOthers(F: Fanout, people: seq<TeamMember>, allIds: seq<UserId>, today: CivilDate,
                                                 keys: VapidKeys, outcome: PushSubscription -> SendOutcome)
    ensures var R := Greetings(F, people, allIds, today, keys, outcome);
      && F.notifications <= R.notifications
      && forall j | |F.notifications| <= j < |R.notifications| ::
           && R.notifications[j].ntype == Verjaardag
           && R.notifications[j].userId != R.notifications[j].actorId
           && R.notifications[j].userId in allIds
           && (exists p | p in people :: R.notifications[j].actorId == p.clerkUserId && R.notifications[j].referenceId == p.id)
  {
    if people != [] {
      var init := people[..|people| - 1];
      var person := people[|people| - 1];
      var P := Greetings(F, init, allIds, today, keys, outcome);
      var R := Greet(P, person, allIds, today, keys, outcome);
      GreetingsNotifyOthers(F, init, allIds, today, keys, outcome);
      GreetAppendsRows(P, person, allIds, today, keys, outcome);
      forall j | |F.notifications| <= j < |R.notifications|
        ensures exists p | p in people :: R.notifications[j].actorId == p.clerkUserId && R.notifications[j].referenceId == p.id
      {
        if j < |P.notifications| {
          assert R.notifications[j] == P.notifications[j];
          var p :| p in init && P.notifications[j].actorId == p.clerkUserId && P.notifications[j].referenceId == p.id;
          assert p in people;
        } else {
          assert person in people;
        }
      }
    }
  }

  /** Congratulating one person keeps the rows already there and adds only
      VERJAARDAG rows from that person to other roster members. */
  lemma GreetAppendsRows(P: Fanout, person: TeamMember, allIds: seq<UserId>, today: CivilDate,
                         keys: VapidKeys, outcome: PushSubscription -> SendOutcome)
    ensures var R := Greet(P, person, allIds, today, keys, outcome);
      && P.notifications <= R.notifications
      && forall j | |P.notifications| <= j < |R.notifications| ::
           && R.notifications[j].ntype == Verjaardag
           && R.notifications[j].userId != R.notifications[j].actorId
           && R.notifications[j].userId in allIds
           && R.notifications[j].actorId == person.clerkUserId && R.notifications[j].referenceId == person.id
  {
    var recipients := Recipients(allIds, person);
    if recipients != [] {
      var R := Greet(P, person, allIds, today, keys, outcome);
      var d := BirthdayDraft(person, BirthdayMessage(person, today));
      assert R.notifications == P.notifications + NewRows(recipients, d, P.nextId);
      forall j | |P.notifications| <= j < |R.notifications|
        ensures R.notifications[j].ntype == Verjaardag
        ensures R.notifications[j].userId != R.notifications[j].actorId
        ensures R.notifications[j].userId in allIds
        ensures R.notifications[j].actorId == person.clerkUserId && R.notifications[j].referenceId == person.id
      {
        var k := j - |P.notifications|;
        assert R.notifications[j] == Row(P.nextId + k, recipients[k], d);
      }
    }
  }

  /** Every push send made while congratulating a person goes to a registered
      subscription of another roster member. */
  lemma GreetPushesRecipients(F: Fanout, person: TeamMember, allIds: seq<UserId>, today: CivilDate,
                              keys: VapidKeys, outcome: PushSubscription -> SendOutcome, j: nat)
    requires var R := Greet(F, person, allIds, today, keys, outcome); |F.deliveries| <= j < |R.deliveries|
    ensures exists s | s in F.subs ::
      && s.userId in allIds && s.userId != person.clerkUserId
      && Greet(F, person, allIds, today, keys, outcome).deliveries[j].endpoint == s.endpoint
  {
    var recipients := Recipients(allIds, person);
    var targets := Targets(F.subs, recipients);
    var k := j - |F.deliveries|;
    var s := targets[k];
    RecipientsExact(allIds, person, s.userId);
  }

  /** The body of the route's loop for one birthday person. */
  method GreetOne(db: Db, wp: WebPush, person: TeamMember, allIds: seq<UserId>, today: CivilDate,
                  keys: VapidKeys, outcome: PushSubscription -> SendOutcome, deliveries: seq<Delivery>, notified: nat)
    returns (deliveries': seq<Delivery>, notified': nat)
    requires db.PushValid()
    modifies db`notifications, db`nextNotificationId, db`pushSubs, wp
    ensures db.PushValid()
    ensures Fanout(db.notifications, db.nextNotificationId, db.pushSubs, wp.initialized, deliveries', notified')
         == Greet(Fanout(old(db.notifications), old(db.nextNotificationId), old(db.pushSubs), old(wp.initialized), deliveries, notified),
                  person, allIds, today, keys, outcome)
  {
    deliveries', notified' := deliveries, notified;
    var message := BirthdayMessage(person, today);
    var recipientIds := Recipients(allIds, person);
    if |recipientIds| == 0 {
      return;
    }
    CreateNotifications(db, recipientIds, BirthdayDraft(person, message));
    ghost var subs0 := db.pushSubs;
    var sends := SendPushToUsers(wp, db, keys, recipientIds, BirthdayPayload(person, message), outcome);
    assert wp.initialized ==> sends == Deliveries(Targets(subs0, recipientIds), BirthdayPayload(person, message));
    deliveries' := deliveries + sends;
    notified' := notified + 1;
  }

  /** The route. */
  method Run(db: Db, wp: WebPush, header: Option<string>, secret: Option<string>, today: CivilDate,
             keys: VapidKeys, outcome: PushSubscription -> SendOutcome)
    returns (resp: BirthdayResponse, deliveries: seq<Delivery>)
    requires db.PushValid()
    modifies db`notifications, db`nextNotificationId, db`pushSubs, wp
    ensures db.PushValid()
    ensures !Authorized(header, secret) ==>
      && resp == Unauthorized && deliveries == []
      && db.notifications == old(db.notifications) && db.nextNotificationId == old(db.nextNotificationId)
      && db.pushSubs == old(db.pushSubs) && wp.initialized == old(wp.initialized)
    ensures Authorized(header, secret) ==>
      var people := Birthdays(db.roster, today);
      var R := Greetings(Fanout(old(db.notifications), old(db.nextNotificationId), old(db.pushSubs), old(wp.initialized), [], 0),
                         people, ClerkIds(db.roster), today, keys, outcome);
      && db.notifications == R.notifications && db.nextNotificationId == R.nextId
      && db.pushSubs == R.subs && wp.initialized == R.initialized && deliveries == R.deliveries
      && resp == Done(|people|, R.notified)
  {
    deliveries := [];
    if !Authorized(header, secret) {
      return Unauthorized, [];
    }
    var todayBirthdays := Birthdays(db.roster, today);
    ghost var F0 := Fanout(db.notifications, db.nextNotificationId, db.pushSubs, wp.initialized, [], 0);
    if |todayBirthdays| == 0 {
      return Done(0, 0), [];
    }
    var allUserIds := ClerkIds(db.roster);
    var notified := 0;
    var i := 0;
    while i < |todayBirthdays|
      invariant 0 <= i <= |todayBirthdays|
      invariant db.PushValid()
      invariant Fanout(db.notifications, db.nextNotificationId, db.pushSubs, wp.initialized, deliveries, notified)
                == Greetings(F0, todayBirthdays[..i], allUserIds, today, keys, outcome)
    {
      assert todayBirthdays[..i + 1][..i] == todayBirthdays[..i];
      deliveries, notified := GreetOne(db, wp, todayBirthdays[i], allUserIds, today, keys, outcome, deliveries, notified);
      i := i + 1;
    }
    assert todayBirthdays[..i] == todayBirthdays;
    resp := Done(|todayBirthdays|, notified);
  }
}
