/** The reminder sweep (GET /api/cron/herinneringen,
    src/app/api/cron/herinneringen/route.ts): every unsent reminder rule is
    loaded and visited in order; a rule that is due for an upcoming event
    reminds the invitees who have not answered yet (one mail call, one
    HERINNERING notification and one log row each) and is then marked sent.

    The per-rule behaviour is the function `Step`, a whole run the left fold
    `Sweep`; the route itself is the method `Run`, proved to leave exactly the
    state `Sweep` describes. */
module ReminderSweep {
  import opened Common
  import opened Store
  import opened CronAuth

  /** What the sweep reads and never writes: events, invitations, answers and the clock. */
  datatype World = World(events: map<Id, Event>, invitations: seq<Invitation>, availability: seq<Availability>, now: int)

  /** One call of the reminder mailer. */
  datatype ReminderMail = ReminderMail(eventId: Id, titel: string, deadline: int, userIds: seq<UserId>)

  /** What the sweep writes: the rule table, the notification and log tables,
      the mailer calls, and the `sent` counter. */
  datatype Ledger = Ledger(
    rules: seq<ReminderRule>, notifications: seq<Notification>, nextId: nat,
    logs: seq<ReminderLog>, mails: seq<ReminderMail>, sent: nat)

  datatype SweepResponse = Unauthorized | Done(processed: nat, sent: nat) | InternalError

  /** The instant a rule becomes due: event creation plus `dagenNaAanmaak` whole days. */
  function TriggerAt(ev: Event, rule: ReminderRule): int {
    ev.createdAt + rule.dagenNaAanmaak * DayMs
  }

  predicate Responded(avail: seq<Availability>, eventId: Id, userId: UserId) {
    exists j | 0 <= j < |avail| :: avail[j].eventId == eventId && avail[j].userId == userId
  }

  predicate Invited(invs: seq<Invitation>, eventId: Id, userId: UserId) {
    exists k | 0 <= k < |invs| :: invs[k].eventId == eventId && invs[k].userId == userId
  }

  /** The invitees of the event without an availability row, in invitation order. */
  function NonResponders(invs: seq<Invitation>, avail: seq<Availability>, eventId: Id): seq<UserId> {
    if invs == [] then []
    else (if invs[0].eventId == eventId && !Responded(avail, eventId, invs[0].userId) then [invs[0].userId] else [])
         + NonResponders(invs[1..], avail, eventId)
  }

  function Invitees(invs: seq<Invitation>, eventId: Id): set<UserId> {
    set k | 0 <= k < |invs| && invs[k].eventId == eventId :: invs[k].userId
  }

  function Responders(avail: seq<Availability>, eventId: Id): set<UserId> {
    set j | 0 <= j < |avail| && avail[j].eventId == eventId :: avail[j].userId
  }

  /** A user is a non-responder exactly when invited to the event and without an answer to it. */
  lemma {:induction false} NonRespondersExact(invs: seq<Invitation>, avail: seq<Availability>, eventId: Id, x: UserId)
    ensures x in NonResponders(invs, avail, eventId) <==> Invited(invs, eventId, x) && !Responded(avail, eventId, x)
  {
    if invs != [] {
      var tail := invs[1..];
      NonRespondersExact(tail, avail, eventId, x);
      if Invited(tail, eventId, x) {
        var k :| 0 <= k < |tail| && tail[k].eventId == eventId && tail[k].userId == x;
        assert invs[k + 1] == tail[k];
      }
      if Invited(invs, eventId, x) {
        var k :| 0 <= k < |invs| && invs[k].eventId == eventId && invs[k].userId == x;
        if k > 0 { assert tail[k - 1] == invs[k]; }
      }
    }
  }

  /** The audience of a reminder is the invitees minus the responders. */
  lemma AudienceIsInviteesMinusResponders(invs: seq<Invitation>, avail: seq<Availability>, eventId: Id)
    ensures (set x | x in NonResponders(invs, avail, eventId)) == Invitees(invs, eventId) - Responders(avail, eventId)
  {
    forall x ensures x in NonResponders(invs, avail, eventId) <==> x in Invitees(invs, eventId) - Responders(avail, eventId) {
      NonRespondersExact(invs, avail, eventId, x);
      if x in Invitees(invs, eventId) {
        var k :| 0 <= k < |invs| && invs[k].eventId == eventId && invs[k].userId == x;
      }
      if x in Responders(avail, eventId) {
        var j :| 0 <= j < |avail| && avail[j].eventId == eventId && avail[j].userId == x;
      }
      if Invited(invs, eventId, x) {
        var k :| 0 <= k < |invs| && invs[k].eventId == eventId && invs[k].userId == x;
        assert x in Invitees(invs, eventId);
      }
      if Responded(avail, eventId, x) {
        var j :| 0 <= j < |avail| && avail[j].eventId == eventId && avail[j].userId == x;
        assert x in Responders(avail, eventId);
      }
    }
  }

  /** What the sweep does with one loaded rule. */
  datatype Fate = NotDue | EventPast | AllResponded | Remind(audience: seq<UserId>)

  function FateOf(rule: ReminderRule, w: World): Fate
    requires rule.eventId in w.events
  {
    var ev := w.events[rule.eventId];
    if w.now < TriggerAt(ev, rule) then NotDue
    else if ev.datum < w.now then EventPast
    else
      var nr := NonResponders(w.invitations, w.availability, rule.eventId);
      if nr == [] then AllResponded else Remind(nr)
  }

  /** The rule is skipped without any write: not yet due, or its event is past. */
  predicate Quiet(rule: ReminderRule, w: World) {
    rule.eventId in w.events && (FateOf(rule, w).NotDue? || FateOf(rule, w).EventPast?)
  }

  /** `eventHerinnering.update({ where: { id }, data: { verzonden: true, verzondenOp: now } })`. */
  function MarkSent(rules: seq<ReminderRule>, id: Id, now: int): seq<ReminderRule> {
    seq(|rules|, i requires 0 <= i < |rules| =>
      if rules[i].id == id then rules[i].(verzonden := true, verzondenOp := Some(now)) else rules[i])
  }

  function ReminderMessage(titel: string): string {
    "Herinnering: reageer op \"" + titel + "\""
  }

  function ReminderDraft(eventId: Id, ev: Event): Draft {
    Draft(Herinnering, ReminderMessage(ev.titel), EventRef, eventId, ev.aangemaaktDoor)
  }

  /** One log row per reminded user. */
  function LogRows(eventId: Id, userIds: seq<UserId>, now: int): seq<ReminderLog> {
    seq(|userIds|, i requires 0 <= i < |userIds| => ReminderLog(eventId, userIds[i], now))
  }

  /** The effect of visiting one loaded rule. */
  function Step(L: Ledger, rule: ReminderRule, w: World): Ledger
    requires rule.eventId in w.events
  {
    var ev := w.events[rule.eventId];
    match FateOf(rule, w)
    case NotDue => L
    case EventPast => L
    case AllResponded => L.(rules := MarkSent(L.rules, rule.id, w.now))
    case Remind(nr) =>
      L.(rules := MarkSent(L.rules, rule.id, w.now),
         notifications := L.notifications + NewRows(nr, ReminderDraft(rule.eventId, ev), L.nextId),
         nextId := L.nextId + |nr|,
         logs := L.logs + LogRows(rule.eventId, nr, w.now),
         mails := L.mails + [ReminderMail(rule.eventId, ev.titel, ev.deadline.GetOr(ev.datum), nr)],
         sent := L.sent + 1)
  }

  predicate RefersToEvents(s: seq<ReminderRule>, w: World) {
    forall i | 0 <= i < |s| :: s[i].eventId in w.events
  }

  /** Visiting the rules of `s` in order. */
  function Sweep(L: Ledger, s: seq<ReminderRule>, w: World): Ledger
    requires RefersToEvents(s, w)
  {
    if s == [] then L else Step(Sweep(L, s[..|s| - 1], w), s[|s| - 1], w)
  }

  /** `findMany({ where: { verzonden: false } })`. */
  function Unsent(rules: seq<ReminderRule>): seq<ReminderRule> {
    Filter(rules, (r: ReminderRule) => !r.verzonden)
  }

  /** At most one `sent` per visited rule. */
  lemma {:induction false} SentBounded(L: Ledger, s: seq<ReminderRule>, w: World)
    requires RefersToEvents(s, w)
    ensures L.sent <= Sweep(L, s, w).sent <= L.sent + |s|
  {
    if s != [] {
      SentBounded(L, s[..|s| - 1], w);
    }
  }

  /** The sweep only ever sets `verzonden` to true (stamping `verzondenOp`);
      no other field of a rule changes and no rule is added or removed. */
  lemma {:induction false} SentFlagMonotone(L: Ledger, s: seq<ReminderRule>, w: World, i: nat)
    requires RefersToEvents(s, w)
    requires i < |L.rules|
    ensures |Sweep(L, s, w).rules| == |L.rules|
    ensures var x := Sweep(L, s, w).rules[i];
      x == L.rules[i] || x == L.rules[i].(verzonden := true, verzondenOp := Some(w.now))
  {
    if s != [] {
      SentFlagMonotone(L, s[..|s| - 1], w, i);
    }
  }

  /** Rows already in the notification and log tables are never changed. */
  lemma {:induction false} SweepOnlyAppends(L: Ledger, s: seq<ReminderRule>, w: World)
    requires RefersToEvents(s, w)
    ensures L.notifications <= Sweep(L, s, w).notifications
    ensures L.logs <= Sweep(L, s, w).logs
    ensures L.mails <= Sweep(L, s, w).mails
  {
    if s != [] {
      SweepOnlyAppends(L, s[..|s| - 1], w);
    }
  }

  /** Everyone the sweep reminds (by log row, by notification, by mail) was
      invited to that event and had not answered; every notification it writes
      is a HERINNERING about that event, by the event's creator. */
  lemma {:induction false} RemindsOnlyNonResponders(L: Ledger, s: seq<ReminderRule>, w: World)
    requires RefersToEvents(s, w)
    ensures var R := Sweep(L, s, w);
      && |L.logs| <= |R.logs|
      && (forall j | |L.logs| <= j < |R.logs| ::
            Invited(w.invitations, R.logs[j].eventId, R.logs[j].userId)
            && !Responded(w.availability, R.logs[j].eventId, R.logs[j].userId))
      && |L.notifications| <= |R.notifications|
      && (forall j | |L.notifications| <= j < |R.notifications| ::
            && R.notifications[j].ntype == Herinnering
            && R.notifications[j].referenceType == EventRef
            && R.notifications[j].referenceId in w.events
            && R.notifications[j].actorId == w.events[R.notifications[j].referenceId].aangemaaktDoor
            && Invited(w.invitations, R.notifications[j].referenceId, R.notifications[j].userId)
            && !Responded(w.availability, R.notifications[j].referenceId, R.notifications[j].userId))
      && |L.mails| <= |R.mails|
      && (forall j | |L.mails| <= j < |R.mails| :: forall u | u in R.mails[j].userIds ::
            Invited(w.invitations, R.mails[j].eventId, u) && !Responded(w.availability, R.mails[j].eventId, u))
  {
    if s != [] {
      var P := Sweep(L, s[..|s| - 1], w);
      RemindsOnlyNonResponders(L, s[..|s| - 1], w);
      var rule := s[|s| - 1];
      var fate := FateOf(rule, w);
      if fate.Remind? {
        var nr := fate.audience;
        assert nr == NonResponders(w.invitations, w.availability, rule.eventId);
        var R := Step(P, rule, w);
        forall j | |P.logs| <= j < |R.logs|
          ensures Invited(w.invitations, R.logs[j].eventId, R.logs[j].userId)
          ensures !Responded(w.availability, R.logs[j].eventId, R.logs[j].userId)
        {
          assert R.logs[j] == ReminderLog(rule.eventId, nr[j - |P.logs|], w.now);
          NonRespondersExact(w.invitations, w.availability, rule.eventId, nr[j - |P.logs|]);
        }
        forall j | |P.notifications| <= j < |R.notifications|
          ensures R.notifications[j].referenceId == rule.eventId
          ensures R.notifications[j].actorId == w.events[rule.eventId].aangemaaktDoor
          ensures Invited(w.invitations, rule.eventId, R.notifications[j].userId)
          ensures !Responded(w.availability, rule.eventId, R.notifications[j].userId)
        {
          assert R.notifications[j] == Row(P.nextId + (j - |P.notifications|), nr[j - |P.notifications|], ReminderDraft(rule.eventId, w.events[rule.eventId]));
          NonRespondersExact(w.invitations, w.availability, rule.eventId, nr[j - |P.notifications|]);
        }
        assert R.mails == P.mails + [ReminderMail(rule.eventId, w.events[rule.eventId].titel,
                                                  w.events[rule.eventId].deadline.GetOr(w.events[rule.eventId].datum), nr)];
        forall u | u in nr
          ensures Invited(w.invitations, rule.eventId, u) && !Responded(w.availability, rule.eventId, u)
        {
          NonRespondersExact(w.invitations, w.availability, rule.eventId, u);
        }
      }
    }
  }

  /** The event is due under one of the rules of `s`: that rule's trigger
      instant has come and the event's date has not passed. */
  predicate DueIn(s: seq<ReminderRule>, w: World, eventId: Id) {
    && eventId in w.events
    && exists i | 0 <= i < |s| ::
         s[i].eventId == eventId && TriggerAt(w.events[eventId], s[i]) <= w.now <= w.events[eventId].datum
  }

  /** Every log row, notification and mail the sweep writes is about an event
      that one of the visited rules made due and that is still upcoming. */
  lemma {:induction false} RemindersAreDue(L: Ledger, s: seq<ReminderRule>, w: World)
    requires RefersToEvents(s, w)
    ensures var R := Sweep(L, s, w);
      && |L.logs| <= |R.logs|
      && (forall j | |L.logs| <= j < |R.logs| :: DueIn(s, w, R.logs[j].eventId))
      && |L.notifications| <= |R.notifications|
      && (forall j | |L.notifications| <= j < |R.notifications| :: DueIn(s, w, R.notifications[j].referenceId))
      && |L.mails| <= |R.mails|
      && (forall j | |L.mails| <= j < |R.mails| :: DueIn(s, w, R.mails[j].eventId))
  {
    if s != [] {
      var init := s[..|s| - 1];
      var P := Sweep(L, init, w);
      RemindersAreDue(L, init, w);
      forall e | DueIn(init, w, e) ensures DueIn(s, w, e) {
        var i :| 0 <= i < |init| && init[i].eventId == e
                 && TriggerAt(w.events[e], init[i]) <= w.now <= w.events[e].datum;
        assert s[i] == init[i];
      }
      var rule := s[|s| - 1];
      if FateOf(rule, w).Remind? {
        assert DueIn(s, w, rule.eventId);
        var nr := FateOf(rule, w).audience;
        var R := Step(P, rule, w);
        forall j | |P.logs| <= j < |R.logs| ensures R.logs[j].eventId == rule.eventId {
          assert R.logs[j] == ReminderLog(rule.eventId, nr[j - |P.logs|], w.now);
        }
        forall j | |P.notifications| <= j < |R.notifications| ensures R.notifications[j].referenceId == rule.eventId {
          assert R.notifications[j] == Row(P.nextId + (j - |P.notifications|), nr[j - |P.notifications|], ReminderDraft(rule.eventId, w.events[rule.eventId]));
        }
        assert |R.mails| == |P.mails| + 1 && R.mails[|P.mails|].eventId == rule.eventId;
      }
    }
  }

  /** Visiting only quiet rules writes nothing. */
  lemma {:induction false} QuietSweepIsNoOp(L: Ledger, s: seq<ReminderRule>, w: World)
    requires forall i | 0 <= i < |s| :: Quiet(s[i], w)
    ensures RefersToEvents(s, w)
    ensures Sweep(L, s, w) == L
  {
    if s != [] {
      QuietSweepIsNoOp(L, s[..|s| - 1], w);
    }
  }

  /** Every rule of the table is sent, quiet, or still waiting in `rest`. */
  ghost predicate Settled(rules: seq<ReminderRule>, rest: seq<ReminderRule>, w: World) {
    forall i | 0 <= i < |rules| :: rules[i].verzonden || Quiet(rules[i], w) || rules[i] in rest
  }

  /** Visiting the first waiting rule keeps every table rule sent, quiet or waiting. */
  lemma StepSettles(L: Ledger, rule: ReminderRule, rest: seq<ReminderRule>, w: World)
    requires rule.eventId in w.events
    requires Settled(L.rules, [rule] + rest, w)
    ensures Settled(Step(L, rule, w).rules, rest, w)
  {
    var R := Step(L, rule, w).rules;
    forall i | 0 <= i < |R| ensures R[i].verzonden || Quiet(R[i], w) || R[i] in rest {
      if !(FateOf(rule, w).NotDue? || FateOf(rule, w).EventPast?) {
        assert R == MarkSent(L.rules, rule.id, w.now);
        if L.rules[i] == rule {
          assert R[i].verzonden;
        }
      }
    }
  }

  lemma {:induction false} SweepSettles(L: Ledger, s: seq<ReminderRule>, w: World, k: nat)
    requires RefersToEvents(s, w)
    requires k <= |s|
    requires Settled(L.rules, s, w)
    ensures Settled(Sweep(L, s[..k], w).rules, s[k..], w)
  {
    if k > 0 {
      SweepSettles(L, s, w, k - 1);
      assert s[..k][..k - 1] == s[..k - 1];
      assert s[k - 1..] == [s[k - 1]] + s[k..];
      StepSettles(Sweep(L, s[..k - 1], w), s[k - 1], s[k..], w);
    } else {
      assert s[..0] == [];
    }
  }

  /** A second sweep at the same instant over the state the first one left,
      with no new events, invitations or answers, writes nothing, mails
      nobody and counts nothing: it leaves any ledger it starts from as it is,
      the first sweep's result as well as that result with fresh counters. */
  lemma SecondRunIsQuiet(L: Ledger, w: World)
    requires RefersToEvents(L.rules, w)
    ensures RefersToEvents(Unsent(L.rules), w)
    ensures var first := Sweep(L, Unsent(L.rules), w);
      && RefersToEvents(Unsent(first.rules), w)
      && Sweep(first, Unsent(first.rules), w) == first
      && Sweep(first.(sent := 0, mails := []), Unsent(first.rules), w) == first.(sent := 0, mails := [])
  {
    var s := Unsent(L.rules);
    assert Settled(L.rules, s, w);
    SweepSettles(L, s, w, |s|);
    assert s[..|s|] == s;
    var first := Sweep(L, s, w);
    assert Settled(first.rules, [], w);
    var s2 := Unsent(first.rules);
    forall i | 0 <= i < |s2| ensures Quiet(s2[i], w) {
      var k :| 0 <= k < |first.rules| && first.rules[k] == s2[i];
    }
    QuietSweepIsNoOp(first, s2, w);
    QuietSweepIsNoOp(first.(sent := 0, mails := []), s2, w);
  }

  function LedgerOf(rules: seq<ReminderRule>, notifications: seq<Notification>, nextId: nat,
                    logs: seq<ReminderLog>, mails: seq<ReminderMail>, sent: nat): Ledger {
    Ledger(rules, notifications, nextId, logs, mails, sent)
  }

  /** The body of the route's loop for one loaded rule: skip it, mark it sent,
      or mail, notify, log and mark it sent. */
  method VisitRule(db: Db, rule: ReminderRule, w: World, mails: seq<ReminderMail>, sent: nat)
    returns (mails': seq<ReminderMail>, sent': nat)
    requires rule.eventId in w.events
    requires w == World(db.events, db.invitations, db.availability, w.now)
    requires db.RulesReferToEvents()
    modifies db`rules, db`notifications, db`nextNotificationId, db`reminderLogs
    ensures db.RulesReferToEvents()
    ensures LedgerOf(db.rules, db.notifications, db.nextNotificationId, db.reminderLogs, mails', sent')
         == Step(LedgerOf(old(db.rules), old(db.notifications), old(db.nextNotificationId), old(db.reminderLogs), mails, sent), rule, w)
  {
    mails', sent' := mails, sent;
    var now := w.now;
    var ev := db.events[rule.eventId];
    if now < TriggerAt(ev, rule) || ev.datum < now {
      return;
    }
    var nonResponderIds := NonResponders(db.invitations, db.availability, rule.eventId);
    if |nonResponderIds| == 0 {
      db.rules := MarkSent(db.rules, rule.id, now);
      return;
    }
    mails' := mails + [ReminderMail(rule.eventId, ev.titel, ev.deadline.GetOr(ev.datum), nonResponderIds)];
    CreateNotifications(db, nonResponderIds, ReminderDraft(rule.eventId, ev));
    db.reminderLogs := db.reminderLogs + LogRows(rule.eventId, nonResponderIds, now);
    db.rules := MarkSent(db.rules, rule.id, now);
    sent' := sent + 1;
  }

  /** The route's loop over the loaded rules, stopping before the rule at
      position `fault` when there is one: the store ends up as the sweep of
      the rules visited leaves it. */
  method SweepLoaded(db: Db, loaded: seq<ReminderRule>, w: World, fault: Option<nat>)
    returns (completed: bool, mails: seq<ReminderMail>, sent: nat)
    requires RefersToEvents(loaded, w)
    requires w == World(db.events, db.invitations, db.availability, w.now)
    requires db.RulesReferToEvents()
    modifies db`rules, db`notifications, db`nextNotificationId, db`reminderLogs
    ensures db.RulesReferToEvents()
    ensures var n := if fault.Some? && fault.value < |loaded| then fault.value else |loaded|;
      && completed == (n == |loaded|)
      && LedgerOf(db.rules, db.notifications, db.nextNotificationId, db.reminderLogs, mails, sent)
         == Sweep(LedgerOf(old(db.rules), old(db.notifications), old(db.nextNotificationId), old(db.reminderLogs), [], 0),
                  loaded[..n], w)
  {
    ghost var L0 := LedgerOf(db.rules, db.notifications, db.nextNotificationId, db.reminderLogs, [], 0);
    mails, sent := [], 0;
    var i := 0;
    while i < |loaded|
      invariant 0 <= i <= |loaded|
      invariant fault.Some? ==> i <= fault.value
      invariant db.RulesReferToEvents()
      invariant LedgerOf(db.rules, db.notifications, db.nextNotificationId, db.reminderLogs, mails, sent)
                == Sweep(L0, loaded[..i], w)
    {
      if fault.Some? && fault.value == i {
        return false, mails, sent;
      }
      assert loaded[..i + 1][..i] == loaded[..i];
      mails, sent := VisitRule(db, loaded[i], w, mails, sent);
      i := i + 1;
    }
    assert loaded[..i] == loaded;
    completed := true;
  }

  /** The route. `fault`, when it names a loaded rule's position, is the store
      throwing while that rule is visited: what earlier rules wrote stays and
      the response is 500. */
  method Run(db: Db, header: Option<string>, secret: Option<string>, now: int, fault: Option<nat>)
    returns (resp: SweepResponse, mails: seq<ReminderMail>)
    requires db.RulesReferToEvents()
    modifies db`rules, db`notifications, db`nextNotificationId, db`reminderLogs
    ensures db.RulesReferToEvents()
    ensures !Authorized(header, secret) ==>
      && resp == Unauthorized && mails == []
      && db.rules == old(db.rules) && db.notifications == old(db.notifications)
      && db.nextNotificationId == old(db.nextNotificationId) && db.reminderLogs == old(db.reminderLogs)
    ensures Authorized(header, secret) ==>
      var w := World(db.events, db.invitations, db.availability, now);
      var loaded := Unsent(old(db.rules));
      var n := if fault.Some? && fault.value < |loaded| then fault.value else |loaded|;
      && RefersToEvents(loaded, w)
      && var R := Sweep(Ledger(old(db.rules), old(db.notifications), old(db.nextNotificationId), old(db.reminderLogs), [], 0),
                        loaded[..n], w);
      && db.rules == R.rules && db.notifications == R.notifications
      && db.nextNotificationId == R.nextId && db.reminderLogs == R.logs && mails == R.mails
      && resp == (if n < |loaded| then InternalError else Done(|loaded|, R.sent))
  {
    mails := [];
    if !Authorized(header, secret) {
      return Unauthorized, [];
    }
    var w := World(db.events, db.invitations, db.availability, now);
    var loaded := Unsent(db.rules);
    assert RefersToEvents(loaded, w);
    var completed, sent;
    completed, mails, sent := SweepLoaded(db, loaded, w, fault);
    resp := if completed then Done(|loaded|, sent) else InternalError;
  }
}
