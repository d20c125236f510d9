/** Event actions (src/lib/actions/events.ts): the availability upsert with its
    admin notification, and the admin-only create, update and delete of events.

    `new Date(s)` is the oracle `parseDate` (None: an invalid date, which the
    store rejects on write); the store-generated event id is the parameter
    `freshId`, and an id already in use fails like any store error. The
    identity provider's user listing for the notifications is `listing`. */
module EventActions {
  import opened Common
  import opened Store
  import opened Auth
  import opened Notifications
  import opened EventValidation
  import opened ReminderSweep

  /** The store's unique key (eventId, userId) of the availability table. */
  ghost predicate UniqueAnswers(avail: seq<Availability>) {
    DistinctBy(avail, (a: Availability) => (a.eventId, a.userId))
  }

  /** `beschikbaarheid.upsert` keyed by (eventId, userId): an existing answer gets
      the new status and reason and a fresh response time; otherwise one row is added. */
  function UpsertAnswer(avail: seq<Availability>, eventId: Id, userId: UserId,
                        status: AvailabilityStatus, reden: Option<string>, now: int): seq<Availability>
  {
    if Responded(avail, eventId, userId) then
      seq(|avail|, i requires 0 <= i < |avail| =>
        if avail[i].eventId == eventId && avail[i].userId == userId
        then avail[i].(status := status, reden := NullIfEmpty(reden), tijdstipReactie := now)
        else avail[i])
    else
      avail + [Availability(eventId, userId, status, NullIfEmpty(reden), now)]
  }

  /** After the upsert there is exactly one answer of the user for the event,
      carrying the submitted status, the reason (null when empty) and `now`; a
      resubmission adds no row, a first answer adds one; the key stays unique. */
  lemma UpsertOneAnswerPerKey(avail: seq<Availability>, eventId: Id, userId: UserId,
                              status: AvailabilityStatus, reden: Option<string>, now: int)
    requires UniqueAnswers(avail)
    ensures var r := UpsertAnswer(avail, eventId, userId, status, reden, now);
      && UniqueAnswers(r)
      && |r| == (if Responded(avail, eventId, userId) then |avail| else |avail| + 1)
      && exists i | 0 <= i < |r| :: r[i] == Availability(eventId, userId, status, NullIfEmpty(reden), now)
  {
    var r := UpsertAnswer(avail, eventId, userId, status, reden, now);
    if Responded(avail, eventId, userId) {
      var k :| 0 <= k < |avail| && avail[k].eventId == eventId && avail[k].userId == userId;
      assert r[k] == Availability(eventId, userId, status, NullIfEmpty(reden), now);
    } else {
      assert r[|avail|] == Availability(eventId, userId, status, NullIfEmpty(reden), now);
    }
  }

  /** Answers of other users, or for other events, are untouched. */
  lemma UpsertOthersUnchanged(avail: seq<Availability>, eventId: Id, userId: UserId,
                              status: AvailabilityStatus, reden: Option<string>, now: int, a: Availability)
    requires a.eventId != eventId || a.userId != userId
    ensures a in UpsertAnswer(avail, eventId, userId, status, reden, now) <==> a in avail
  {
    var r := UpsertAnswer(avail, eventId, userId, status, reden, now);
    if a in avail {
      var k :| 0 <= k < |avail| && avail[k] == a;
      assert Responded(avail, eventId, userId) ==> r[k] == a;
    }
    if a in r && Responded(avail, eventId, userId) {
      var k :| 0 <= k < |r| && r[k] == a;
      assert avail[k] == a;
    }
  }

  /** The last answer wins: answering twice is the same as giving only the second answer. */
  lemma LastAnswerWins(avail: seq<Availability>, eventId: Id, userId: UserId,
                       s1: AvailabilityStatus, r1: Option<string>, t1: int,
                       s2: AvailabilityStatus, r2: Option<string>, t2: int)
    ensures UpsertAnswer(UpsertAnswer(avail, eventId, userId, s1, r1, t1), eventId, userId, s2, r2, t2)
         == UpsertAnswer(avail, eventId, userId, s2, r2, t2)
  {
    var once := UpsertAnswer(avail, eventId, userId, s1, r1, t1);
    if Responded(avail, eventId, userId) {
      var k :| 0 <= k < |avail| && avail[k].eventId == eventId && avail[k].userId == userId;
      assert once[k].eventId == eventId && once[k].userId == userId;
    } else {
      assert once[|avail|].eventId == eventId && once[|avail|].userId == userId;
    }
  }

  /** Once a user has answered, the reminder sweep no longer counts them as a non-responder. */
  lemma AnsweredIsNotReminded(invs: seq<Invitation>, avail: seq<Availability>, eventId: Id, userId: UserId,
                              status: AvailabilityStatus, reden: Option<string>, now: int)
    ensures userId !in NonResponders(invs, UpsertAnswer(avail, eventId, userId, status, reden, now), eventId)
  {
    var r := UpsertAnswer(avail, eventId, userId, status, reden, now);
    NonRespondersExact(invs, r, eventId, userId);
    if Responded(avail, eventId, userId) {
      var k :| 0 <= k < |avail| && avail[k].eventId == eventId && avail[k].userId == userId;
      assert r[k].eventId == eventId && r[k].userId == userId;
    } else {
      assert r[|avail|].eventId == eventId && r[|avail|].userId == userId;
    }
  }

  /** `BESCHIKBAARHEID_LABELS`. */
  function StatusLabel(s: AvailabilityStatus): string {
    match s
    case Beschikbaar => "Beschikbaar"
    case NietBeschikbaar => "Niet beschikbaar"
    case Twijfel => "Twijfel"
  }

  /** The admins' notification text; `event?.titel` renders as "undefined" when the event is gone. */
  function AvailabilityMessage(status: AvailabilityStatus, titel: Option<string>): string {
    "Heeft zich als " + LowerAscii(StatusLabel(status)) + " gemeld voor \"" + titel.GetOr("undefined") + "\""
  }

  function AvailabilityDraft(eventId: Id, userId: UserId, status: AvailabilityStatus, titel: Option<string>): Draft {
    Draft(BeschikbaarheidGemeld, AvailabilityMessage(status, titel), EventRef, eventId, userId)
  }

  /** `setAvailability`. The upsert's create branch needs the event to exist
      (foreign key); its update branch does not. */
  method SetAvailability(db: Db, session: Session, form: AvailabilityForm, now: int, listing: Option<seq<IdentityUser>>)
    returns (r: ActionResult)
    modifies db`availability, db`notifications, db`nextNotificationId
    ensures !SignedIn(session) ==> r == Failure(NotSignedIn)
    ensures SignedIn(session) && ParseAvailability(form).None? ==> r == Failure(Invalid)
    ensures r.Failure? ==>
      db.availability == old(db.availability) && db.notifications == old(db.notifications)
      && db.nextNotificationId == old(db.nextNotificationId)
    ensures r.Success? <==>
      SignedIn(session) && ParseAvailability(form).Some?
      && (ParseAvailability(form).value.eventId in old(db.events)
          || Responded(old(db.availability), ParseAvailability(form).value.eventId, session.userId.value))
    ensures r.Success? ==>
      var d, uid := ParseAvailability(form).value, session.userId.value;
      var titel := if d.eventId in old(db.events) then Some(old(db.events)[d.eventId].titel) else None;
      var note := AvailabilityDraft(d.eventId, uid, d.status, titel);
      && db.availability == UpsertAnswer(old(db.availability), d.eventId, uid, d.status, d.reden, now)
      && db.notifications == old(db.notifications) + NewRows(AdminRecipients(listing, uid), note, old(db.nextNotificationId))
      && db.nextNotificationId == old(db.nextNotificationId) + |AdminRecipients(listing, uid)|
    ensures UniqueAnswers(old(db.availability)) ==> UniqueAnswers(db.availability)
  {
    var uid := GetCurrentUserId(session);
    if uid.Threw? {
      return Failure(uid.reason);
    }
    var userId := uid.value;
    var parsed := ParseAvailability(form);
    if parsed.None? {
      return Failure(Invalid);
    }
    var data := parsed.value;
    if !Responded(db.availability, data.eventId, userId) && data.eventId !in db.events {
      return Failure(StoreError);
    }
    if UniqueAnswers(db.availability) {
      UpsertOneAnswerPerKey(db.availability, data.eventId, userId, data.status, data.reden, now);
    }
    db.availability := UpsertAnswer(db.availability, data.eventId, userId, data.status, data.reden, now);
    var titel := if data.eventId in db.events then Some(db.events[data.eventId].titel) else None;
    NotifyAdmins(db, listing, AvailabilityDraft(data.eventId, userId, data.status, titel));
    r := Success;
  }

  /** The event row written from validated form data, None when a date the
      store must hold is not a valid date. Empty optional strings become null. */
  function BuildEvent(d: EventData, parseDate: string -> Option<int>, creator: UserId, createdAt: int): (r: Option<Event>)
    ensures r.Some? <==>
      && parseDate(d.datum).Some?
      && (Truthy(d.eindtijd) ==> parseDate(d.eindtijd.value).Some?)
      && (Truthy(d.deadline) ==> parseDate(d.deadline.value).Some?)
    ensures r.Some? ==>
      && r.value.eventType == d.eventType && r.value.titel == d.titel
      && r.value.datum == parseDate(d.datum).value
      && (r.value.beschrijving.Some? <==> Truthy(d.beschrijving))
      && (r.value.locatie.Some? <==> Truthy(d.locatie))
      && (r.value.eindtijd.Some? <==> Truthy(d.eindtijd))
      && (r.value.deadline.Some? <==> Truthy(d.deadline))
      && (r.value.deadline.Some? ==> r.value.deadline == parseDate(d.deadline.value))
      && r.value.aangemaaktDoor == creator && r.value.createdAt == createdAt
  {
    var datum := parseDate(d.datum);
    var eind := if Truthy(d.eindtijd) then parseDate(d.eindtijd.value) else None;
    var deadline := if Truthy(d.deadline) then parseDate(d.deadline.value) else None;
    if datum.None? || (Truthy(d.eindtijd) && eind.None?) || (Truthy(d.deadline) && deadline.None?) then None
    else Some(Event(d.eventType, d.titel, NullIfEmpty(d.beschrijving), datum.value, eind,
                    NullIfEmpty(d.locatie), deadline, creator, createdAt))
  }

  function NewEventDraft(eventId: Id, titel: string, creator: UserId): Draft {
    Draft(NieuwEvenement, "Nieuw evenement: \"" + titel + "\"", EventRef, eventId, creator)
  }

  /** `createEvent`: admins only; the members (never the creator) are told. */
  method CreateEvent(db: Db, session: Session, form: EventForm, parseDate: string -> Option<int>,
                     freshId: Id, now: int, listing: Option<seq<IdentityUser>>)
    returns (r: ActionResult)
    requires db.RulesReferToEvents()
    modifies db`events, db`notifications, db`nextNotificationId
    ensures db.RulesReferToEvents()
    ensures RequireAdmin(session).Threw? ==> r == Failure(RequireAdmin(session).reason)
    ensures RequireAdmin(session).Ok? && ParseEvent(form).None? ==> r == Failure(Invalid)
    ensures r.Failure? ==>
      db.events == old(db.events) && db.notifications == old(db.notifications)
      && db.nextNotificationId == old(db.nextNotificationId)
    ensures r.Success? <==>
      && RequireAdmin(session).Ok? && ParseEvent(form).Some? && freshId !in old(db.events)
      && BuildEvent(ParseEvent(form).value, parseDate, RequireAdmin(session).value, now).Some?
    ensures r.Success? ==>
      var uid, d := RequireAdmin(session).value, ParseEvent(form).value;
      && db.events == old(db.events)[freshId := BuildEvent(d, parseDate, uid, now).value]
      && db.notifications == old(db.notifications)
           + NewRows(MemberRecipients(listing, uid), NewEventDraft(freshId, d.titel, uid), old(db.nextNotificationId))
      && db.nextNotificationId == old(db.nextNotificationId) + |MemberRecipients(listing, uid)|
  {
    var admin := RequireAdmin(session);
    if admin.Threw? {
      return Failure(admin.reason);
    }
    var userId := admin.value;
    var parsed := ParseEvent(form);
    if parsed.None? {
      return Failure(Invalid);
    }
    var data := parsed.value;
    var ev := BuildEvent(data, parseDate, userId, now);
    if ev.None? || freshId in db.events {
      return Failure(StoreError);
    }
    db.events := db.events[freshId := ev.value];
    NotifyMembers(db, listing, NewEventDraft(freshId, data.titel, userId));
    r := Success;
  }

  /** `updateEvent`: admins only; the form's fields replace the stored ones,
      the creator and creation time stay; nobody is notified. */
  method UpdateEvent(db: Db, session: Session, id: Id, form: EventForm, parseDate: string -> Option<int>)
    returns (r: ActionResult)
    requires db.RulesReferToEvents()
    modifies db`events
    ensures db.RulesReferToEvents()
    ensures RequireAdmin(session).Threw? ==> r == Failure(RequireAdmin(session).reason)
    ensures RequireAdmin(session).Ok? && ParseEvent(form).None? ==> r == Failure(Invalid)
    ensures r.Failure? ==> db.events == old(db.events)
    ensures r.Success? <==>
      && RequireAdmin(session).Ok? && ParseEvent(form).Some? && id in old(db.events)
      && BuildEvent(ParseEvent(form).value, parseDate, old(db.events)[id].aangemaaktDoor, old(db.events)[id].createdAt).Some?
    ensures r.Success? ==>
      db.events == old(db.events)[id := BuildEvent(ParseEvent(form).value, parseDate,
                                                   old(db.events)[id].aangemaaktDoor, old(db.events)[id].createdAt).value]
  {
    var admin := RequireAdmin(session);
    if admin.Threw? {
      return Failure(admin.reason);
    }
    var parsed := ParseEvent(form);
    if parsed.None? {
      return Failure(Invalid);
    }
    if id !in db.events {
      return Failure(StoreError);
    }
    var old_ := db.events[id];
    var ev := BuildEvent(parsed.value, parseDate, old_.aangemaaktDoor, old_.createdAt);
    if ev.None? {
      return Failure(StoreError);
    }
    db.events := db.events[id := ev.value];
    r := Success;
  }

  /** `deleteEvent`: admins only; the event's invitations, answers, reminder
      rules and reminder logs go with it. */
  method DeleteEvent(db: Db, session: Session, id: Id) returns (r: ActionResult)
    requires db.RulesReferToEvents()
    modifies db`events, db`invitations, db`availability, db`rules, db`reminderLogs
    ensures db.RulesReferToEvents()
    ensures RequireAdmin(session).Threw? ==> r == Failure(RequireAdmin(session).reason)
    ensures r.Success? <==> RequireAdmin(session).Ok? && id in old(db.events)
    ensures r.Failure? ==>
      && db.events == old(db.events) && db.invitations == old(db.invitations)
      && db.availability == old(db.availability) && db.rules == old(db.rules)
      && db.reminderLogs == old(db.reminderLogs)
    ensures r.Success? ==>
      && db.events == old(db.events) - {id}
      && db.invitations == Filter(old(db.invitations), (v: Invitation) => v.eventId != id)
      && db.availability == Filter(old(db.availability), (a: Availability) => a.eventId != id)
      && db.rules == Filter(old(db.rules), (x: ReminderRule) => x.eventId != id)
      && db.reminderLogs == Filter(old(db.reminderLogs), (l: ReminderLog) => l.eventId != id)
  {
    var admin := RequireAdmin(session);
    if admin.Threw? {
      return Failure(admin.reason);
    }
    if id !in db.events {
      return Failure(StoreError);
    }
    db.events := db.events - {id};
    db.invitations := Filter(db.invitations, (v: Invitation) => v.eventId != id);
    db.availability := Filter(db.availability, (a: Availability) => a.eventId != id);
    db.rules := Filter(db.rules, (x: ReminderRule) => x.eventId != id);
    db.reminderLogs := Filter(db.reminderLogs, (l: ReminderLog) => l.eventId != id);
    r := Success;
  }
}
