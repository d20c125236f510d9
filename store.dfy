/** The persistent store the actions and cron routes read and write: one value
    type per table row, and a `Db` object holding every table the model needs.
    Row ids that the store generates for bulk inserts (notifications, push
    subscriptions) are drawn from counters. */
module Store {
  import opened Common

  /** Milliseconds in a day. */
  const DayMs: int := 86_400_000

  datatype EventType = Wedstrijd | Training | Onderhoud | Sociaal

  datatype Event = Event(
    eventType: EventType,
    titel: string,
    beschrijving: Option<string>,
    datum: int,                 // start instant, ms
    eindtijd: Option<int>,
    locatie: Option<string>,
    deadline: Option<int>,      // deadlineBeschikbaarheid
    aangemaaktDoor: UserId,
    createdAt: int)

  datatype Invitation = Invitation(eventId: Id, userId: UserId)

  datatype AvailabilityStatus = Beschikbaar | NietBeschikbaar | Twijfel

  /** One availability answer; the store keeps at most one per (event, user). */
  datatype Availability = Availability(
    eventId: Id, userId: UserId, status: AvailabilityStatus, reden: Option<string>, tijdstipReactie: int)

  /** A reminder rule of an event (`EventHerinnering`). */
  datatype ReminderRule = ReminderRule(
    id: Id, eventId: Id, dagenNaAanmaak: int, verzonden: bool, verzondenOp: Option<int>)

  /** One reminder delivered to one user (`EventHerinneringLog`). */
  datatype ReminderLog = ReminderLog(eventId: Id, userId: UserId, sentAt: int)

  /** NIEUW_EVENEMENT, BESCHIKBAARHEID, HERINNERING, VERJAARDAG, COMMENT,
      TAAK_GECLAIMD, TAAK_AFGEROND, NIEUWE_TAAK, NIEUW_BERICHT. */
  datatype NotificationType =
    | NieuwEvenement | BeschikbaarheidGemeld | Herinnering | Verjaardag | Reactie
    | TaakGeclaimd | TaakAfgerond | NieuweTaak | NieuwBericht

  /** EVENT, POST, TASK: the kind of entity a notification or comment refers to. */
  datatype ReferenceType = EventRef | PostRef | TaskRef

  datatype Notification = Notification(
    id: nat, userId: UserId, ntype: NotificationType, message: string,
    referenceType: ReferenceType, referenceId: Id, actorId: UserId, read: bool)

  /** The fields every row of one `notification.createMany` call shares. */
  datatype Draft = Draft(
    ntype: NotificationType, message: string, referenceType: ReferenceType, referenceId: Id, actorId: UserId)

  function Row(id: nat, userId: UserId, d: Draft): Notification {
    Notification(id, userId, d.ntype, d.message, d.referenceType, d.referenceId, d.actorId, false)
  }

  /** The rows `createMany` inserts: one unread row per recipient, in order. */
  function NewRows(recipients: seq<UserId>, d: Draft, start: nat): seq<Notification> {
    seq(|recipients|, i requires 0 <= i < |recipients| => Row(start + i, recipients[i], d))
  }

  datatype PushSubscription = PushSubscription(id: nat, userId: UserId, endpoint: string, p256dh: string, auth: string)

  datatype TaskStatus = Open | Opgepakt | Afgerond

  datatype Task = Task(
    titel: string, beschrijving: Option<string>, deadline: Option<int>, taskGroupId: Option<Id>,
    toegewezenAan: Option<UserId>, aangemaaktDoor: UserId, status: TaskStatus,
    geclaimdDoor: Option<UserId>, afgerondOp: Option<int>)

  datatype TaskGroup = TaskGroup(titel: string)

  datatype Comment = Comment(parentType: ReferenceType, parentId: Id, inhoud: string, auteurId: UserId)

  datatype CalendarToken = CalendarToken(userId: UserId, token: string)

  datatype PostCategorie = Wedstrijdschema | Reglementen | Bootinfo | Algemeen

  datatype Post = Post(titel: string, inhoud: string, categorie: PostCategorie, gepind: bool, auteurId: UserId)

  datatype PostFile = PostFile(postId: Id, url: string, fileName: string, fileSize: int, fileType: string)

  /** A local calendar date; extracting it from an instant is time-zone work left to the caller. */
  datatype CivilDate = CivilDate(year: int, month: int, day: int)

  /** A roster row (`TeamLid`). */
  datatype TeamMember = TeamMember(
    id: Id, clerkUserId: UserId, voornaam: string, achternaam: string, geboortedatum: Option<CivilDate>)

  /** A user as the identity provider returns it. */
  datatype IdentityUser = IdentityUser(
    id: UserId, firstName: Option<string>, lastName: Option<string>, imageUrl: string,
    emails: seq<string>, roleMeta: Option<string>)

  class Db {
    var events: map<Id, Event>
    var invitations: seq<Invitation>
    var availability: seq<Availability>
    var rules: seq<ReminderRule>
    var reminderLogs: seq<ReminderLog>
    var notifications: seq<Notification>
    var nextNotificationId: nat
    var pushSubs: seq<PushSubscription>
    var nextSubId: nat
    var tasks: map<Id, Task>
    var taskGroups: map<Id, TaskGroup>
    var comments: map<Id, Comment>
    var calendarTokens: seq<CalendarToken>
    var posts: map<Id, Post>
    var postFiles: seq<PostFile>
    var roster: seq<TeamMember>

    constructor ()
      ensures events == map[] && invitations == [] && availability == [] && rules == []
      ensures reminderLogs == [] && notifications == [] && nextNotificationId == 0
      ensures pushSubs == [] && nextSubId == 0 && tasks == map[] && taskGroups == map[]
      ensures comments == map[] && calendarTokens == [] && posts == map[] && postFiles == [] && roster == []
      ensures RulesReferToEvents() && PushValid() && TokensValid()
    {
      events, invitations, availability, rules := map[], [], [], [];
      reminderLogs, notifications, nextNotificationId := [], [], 0;
      pushSubs, nextSubId, tasks, taskGroups := [], 0, map[], map[];
      comments, calendarTokens, posts, postFiles, roster := map[], [], map[], [], [];
    }

    /** Foreign key of a reminder rule. */
    ghost predicate RulesReferToEvents()
      reads this`rules, this`events
    {
      forall i | 0 <= i < |rules| :: rules[i].eventId in events
    }

    /** Subscription ids are below the id counter and unique; endpoints are unique. */
    ghost predicate PushValid()
      reads this`pushSubs, this`nextSubId
    {
      && (forall i | 0 <= i < |pushSubs| :: pushSubs[i].id < nextSubId)
      && DistinctBy(pushSubs, (s: PushSubscription) => s.id)
      && DistinctBy(pushSubs, (s: PushSubscription) => s.endpoint)
    }

    /** `userId` is a unique key of the calendar-token table. */
    ghost predicate TokensValid()
      reads this`calendarTokens
    {
      DistinctBy(calendarTokens, (t: CalendarToken) => t.userId)
    }
  }

  /** The identity provider's user records (the role metadata lives here). */
  class IdentityProvider {
    var users: seq<IdentityUser>

    constructor (users: seq<IdentityUser>)
      ensures this.users == users
    {
      this.users := users;
    }
  }

  /** `notification.createMany`: appends one row per recipient. */
  method CreateNotifications(db: Db, recipients: seq<UserId>, d: Draft)
    modifies db`notifications, db`nextNotificationId
    ensures db.notifications == old(db.notifications) + NewRows(recipients, d, old(db.nextNotificationId))
    ensures db.nextNotificationId == old(db.nextNotificationId) + |recipients|
  {
    db.notifications := db.notifications + NewRows(recipients, d, db.nextNotificationId);
    db.nextNotificationId := db.nextNotificationId + |recipients|;
  }
}
