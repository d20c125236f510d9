/** The statistics queries (src/lib/queries/stats.ts): per-member
    participation (invitations, answers by status, reminders received and
    the share of invitations answered "available", rounded to a whole
    percentage) and per-member completed-task counts. The store's
    `groupBy` is modelled as grouping in order of first appearance. */
module Stats {
  import opened Common
  import opened Store

  // ---------------------------------------------------------------------
  // Grouping
  // ---------------------------------------------------------------------

  /** One `groupBy` row: a key and how many rows carry it. */
  datatype Group = Group(userId: UserId, count: nat)

  /** The distinct keys of `keys`, in order of first appearance. */
  function FirstAppearances(keys: seq<UserId>): seq<UserId> {
    if keys == [] then []
    else
      var prior := FirstAppearances(keys[..|keys| - 1]);
      if keys[|keys| - 1] in prior then prior else prior + [keys[|keys| - 1]]
  }

  /** Every key appears exactly once, and nothing else does. */
  lemma {:induction false} FirstAppearancesExact(keys: seq<UserId>)
    ensures var ds := FirstAppearances(keys);
      && (forall i, j | 0 <= i < j < |ds| :: ds[i] != ds[j])
      && (forall u :: u in ds <==> u in keys)
  {
    if keys != [] {
      var init, last := keys[..|keys| - 1], keys[|keys| - 1];
      FirstAppearancesExact(init);
      assert keys == init + [last];
      assert forall u :: u in keys <==> u in init || u == last;
    }
  }

  function CountKey(keys: seq<UserId>, u: UserId): nat {
    Count(keys, (k: UserId) => k == u)
  }

  /** `groupBy({ by: ["userId"], _count })` over the rows' keys. */
  function GroupByUser(keys: seq<UserId>): seq<Group> {
    var ds := FirstAppearances(keys);
    seq(|ds|, i requires 0 <= i < |ds| => Group(ds[i], CountKey(keys, ds[i])))
  }

  /** One group per distinct key, holding that key's row count, which is at least one. */
  lemma GroupByUserExact(keys: seq<UserId>)
    ensures var gs := GroupByUser(keys);
      && (forall i, j | 0 <= i < j < |gs| :: gs[i].userId != gs[j].userId)
      && (forall u :: (exists i | 0 <= i < |gs| :: gs[i].userId == u) <==> u in keys)
      && (forall i | 0 <= i < |gs| :: gs[i].count == CountKey(keys, gs[i].userId) >= 1)
  {
    var ds := FirstAppearances(keys);
    var gs := GroupByUser(keys);
    FirstAppearancesExact(keys);
    forall i | 0 <= i < |gs| ensures gs[i].count >= 1 {
      CountPositive(keys, ds[i]);
    }
    forall u ensures (exists i | 0 <= i < |gs| :: gs[i].userId == u) <==> u in keys {
      if u in keys {
        var i :| 0 <= i < |ds| && ds[i] == u;
        assert gs[i].userId == u;
      }
    }
  }

  lemma {:induction false} CountPositive(keys: seq<UserId>, u: UserId)
    requires u in keys
    ensures CountKey(keys, u) >= 1
  {
    if keys[0] != u {
      CountPositive(keys[1..], u);
    }
  }

  // ---------------------------------------------------------------------
  // Participation
  // ---------------------------------------------------------------------

  /** How one member answered: rows per status. */
  datatype Tally = Tally(beschikbaar: nat, twijfel: nat, nietBeschikbaar: nat)

  const NoAnswers: Tally := Tally(0, 0, 0)

  /** One more answer with status `s`. */
  function Tallied(t: Tally, s: AvailabilityStatus): Tally {
    match s
    case Beschikbaar => t.(beschikbaar := t.beschikbaar + 1)
    case Twijfel => t.(twijfel := t.twijfel + 1)
    case NietBeschikbaar => t.(nietBeschikbaar := t.nietBeschikbaar + 1)
  }

  function TallyFor(m: map<UserId, Tally>, u: UserId): Tally {
    if u in m then m[u] else NoAnswers
  }

  /** `responsesByUser` after the loop has seen `rows`. */
  function ResponsesByUser(rows: seq<Availability>): map<UserId, Tally> {
    if rows == [] then map[]
    else
      var m := ResponsesByUser(rows[..|rows| - 1]);
      var b := rows[|rows| - 1];
      m[b.userId := Tallied(TallyFor(m, b.userId), b.status)]
  }

  /** The loop over all availability rows that fills `responsesByUser`. */
  method CollectResponses(rows: seq<Availability>) returns (m: map<UserId, Tally>)
    ensures m == ResponsesByUser(rows)
  {
    m := map[];
    var i := 0;
    while i < |rows|
      invariant 0 <= i <= |rows|
      invariant m == ResponsesByUser(rows[..i])
    {
      assert rows[..i + 1][..i] == rows[..i];
      var b := rows[i];
      var existing := if b.userId in m then m[b.userId] else NoAnswers;
      m := m[b.userId := Tallied(existing, b.status)];
      i := i + 1;
    }
    assert rows[..i] == rows;
  }

  function CountAnswers(rows: seq<Availability>, u: UserId, s: AvailabilityStatus): nat {
    Count(rows, (b: Availability) => b.userId == u && b.status == s)
  }

  function CountRows(rows: seq<Availability>, u: UserId): nat {
    Count(rows, (b: Availability) => b.userId == u)
  }

  lemma CountSnoc<T>(s: seq<T>, x: T, p: T -> bool)
    ensures Count(s + [x], p) == Count(s, p) + (if p(x) then 1 else 0)
  {
    CountAppend(s, [x], p);
    assert [x][1..] == [];
  }

  /** A member's tally counts exactly their rows of each status, and its
      three counts add up to the number of their rows. */
  lemma {:induction false} ResponsesExact(rows: seq<Availability>, u: UserId)
    ensures var t := TallyFor(ResponsesByUser(rows), u);
      && t.beschikbaar == CountAnswers(rows, u, Beschikbaar)
      && t.twijfel == CountAnswers(rows, u, Twijfel)
      && t.nietBeschikbaar == CountAnswers(rows, u, NietBeschikbaar)
      && t.beschikbaar + t.twijfel + t.nietBeschikbaar == CountRows(rows, u)
  {
    if rows != [] {
      var init, b := rows[..|rows| - 1], rows[|rows| - 1];
      assert rows == init + [b];
      ResponsesExact(init, u);
      CountSnoc(init, b, (x: Availability) => x.userId == u && x.status == Beschikbaar);
      CountSnoc(init, b, (x: Availability) => x.userId == u && x.status == Twijfel);
      CountSnoc(init, b, (x: Availability) => x.userId == u && x.status == NietBeschikbaar);
      CountSnoc(init, b, (x: Availability) => x.userId == u);
    }
  }

  /** `herinneringenByUser`: the loop that copies each group's count into a map. */
  method CollectCounts(groups: seq<Group>) returns (m: map<UserId, nat>)
    requires forall i, j | 0 <= i < j < |groups| :: groups[i].userId != groups[j].userId
    ensures forall u :: u in m <==> exists i | 0 <= i < |groups| :: groups[i].userId == u
    ensures forall i | 0 <= i < |groups| :: m[groups[i].userId] == groups[i].count
  {
    m := map[];
    var i := 0;
    while i < |groups|
      invariant 0 <= i <= |groups|
      invariant forall u :: u in m <==> exists k | 0 <= k < i :: groups[k].userId == u
      invariant forall k | 0 <= k < i :: m[groups[k].userId] == groups[k].count
    {
      m := m[groups[i].userId := groups[i].count];
      i := i + 1;
    }
  }

  /** `Math.round(100 * b / u)` for u > 0, as integers: half rounds up. */
  function Opkomst(b: nat, u: nat): nat {
    if u > 0 then (200 * b + u) / (2 * u) else 0
  }

  /** The percentage is 100·b/u rounded to the nearest whole number, halves
      up, and at most 100 when no more than u answers are "available". */
  lemma OpkomstRounded(b: nat, u: nat)
    requires u > 0
    ensures var p := Opkomst(b, u);
      && 2 * u * p <= 200 * b + u < 2 * u * (p + 1)
      && (b <= u ==> p <= 100)
  {
    var n := 200 * b + u;
    var d := 2 * u;
    var p := n / d;
    DivBounds(n, d);
    if b <= u {
      assert n < 101 * d;
      if p > 100 {
        MulMono(d, 101, p);
      }
    }
  }

  lemma DivBounds(n: int, d: int)
    requires d > 0
    ensures d * (n / d) <= n < d * (n / d) + d
  {
  }

  lemma MulMono(d: int, a: int, c: int)
    requires d > 0 && a <= c
    ensures d * a <= d * c
  {
  }

  /** One row of `getMemberParticipationStats`. */
  datatype ParticipationStat = ParticipationStat(
    userId: UserId, uitgenodigd: nat, beschikbaar: nat, twijfel: nat, nietBeschikbaar: nat,
    herinneringen: nat, opkomstPercentage: nat)

  function InvitedUsers(invitations: seq<Invitation>): seq<UserId> {
    seq(|invitations|, i requires 0 <= i < |invitations| => invitations[i].userId)
  }

  function RemindedUsers(logs: seq<ReminderLog>): seq<UserId> {
    seq(|logs|, i requires 0 <= i < |logs| => logs[i].userId)
  }

  function StatRow(g: Group, responses: map<UserId, Tally>, reminders: map<UserId, nat>): ParticipationStat {
    var t := TallyFor(responses, g.userId);
    ParticipationStat(g.userId, g.count, t.beschikbaar, t.twijfel, t.nietBeschikbaar,
      if g.userId in reminders then reminders[g.userId] else 0, Opkomst(t.beschikbaar, g.count))
  }

  /** `getMemberParticipationStats`: one row per invited member, with their
      invitation count, their answers per status, their reminder count (0
      when they received none) and the rounded share of "available" answers. */
  method MemberParticipationStats(invitations: seq<Invitation>, rows: seq<Availability>, logs: seq<ReminderLog>)
    returns (stats: seq<ParticipationStat>)
    ensures forall i, j | 0 <= i < j < |stats| :: stats[i].userId != stats[j].userId
    ensures forall u :: (exists i | 0 <= i < |stats| :: stats[i].userId == u) <==> u in InvitedUsers(invitations)
    ensures forall i | 0 <= i < |stats| ::
      var s := stats[i];
      && s.uitgenodigd == CountKey(InvitedUsers(invitations), s.userId) >= 1
      && s.beschikbaar == CountAnswers(rows, s.userId, Beschikbaar)
      && s.twijfel == CountAnswers(rows, s.userId, Twijfel)
      && s.nietBeschikbaar == CountAnswers(rows, s.userId, NietBeschikbaar)
      && s.herinneringen == CountKey(RemindedUsers(logs), s.userId)
      && s.opkomstPercentage == Opkomst(s.beschikbaar, s.uitgenodigd)
  {
    var groups := GroupByUser(InvitedUsers(invitations));
    GroupByUserExact(InvitedUsers(invitations));
    var responses := CollectResponses(rows);
    var logGroups := GroupByUser(RemindedUsers(logs));
    GroupByUserExact(RemindedUsers(logs));
    var reminders := CollectCounts(logGroups);
    stats := seq(|groups|, i requires 0 <= i < |groups| => StatRow(groups[i], responses, reminders));
    assert forall i | 0 <= i < |stats| :: stats[i].userId == groups[i].userId;
    forall i | 0 <= i < |stats|
      ensures var s := stats[i];
        && s.uitgenodigd == CountKey(InvitedUsers(invitations), s.userId) >= 1
        && s.beschikbaar == CountAnswers(rows, s.userId, Beschikbaar)
        && s.twijfel == CountAnswers(rows, s.userId, Twijfel)
        && s.nietBeschikbaar == CountAnswers(rows, s.userId, NietBeschikbaar)
        && s.herinneringen == CountKey(RemindedUsers(logs), s.userId)
        && s.opkomstPercentage == Opkomst(s.beschikbaar, s.uitgenodigd)
    {
      var u := groups[i].userId;
      ResponsesExact(rows, u);
      if u in reminders {
        var k :| 0 <= k < |logGroups| && logGroups[k].userId == u;
      } else {
        CountZero(RemindedUsers(logs), u);
      }
    }
  }

  lemma {:induction false} CountZero(keys: seq<UserId>, u: UserId)
    requires u !in keys
    ensures CountKey(keys, u) == 0
  {
    if keys != [] {
      CountZero(keys[1..], u);
    }
  }

  // ---------------------------------------------------------------------
  // Task completion
  // ---------------------------------------------------------------------

  /** The tasks a member completed: finished, and claimed by them. */
  function CompletedBy(tasks: map<Id, Task>, u: UserId): set<Id> {
    set id | id in tasks && tasks[id].status == Afgerond && tasks[id].geclaimdDoor == Some(u)
  }

  /** Members who claimed at least one finished task. */
  function Completers(tasks: map<Id, Task>): set<UserId> {
    set id | id in tasks && tasks[id].status == Afgerond && tasks[id].geclaimdDoor.Some? :: tasks[id].geclaimdDoor.value
  }

  /** `getTaskCompletionStats`: one entry per member who claimed a finished
      task, counting their finished tasks; tasks nobody claimed are not counted. */
  function TaskCompletionStats(tasks: map<Id, Task>): (r: map<UserId, nat>)
    ensures forall u :: u in r <==> CompletedBy(tasks, u) != {}
    ensures forall u | u in r :: r[u] == |CompletedBy(tasks, u)| >= 1
  {
    var r := map u | u in Completers(tasks) :: |CompletedBy(tasks, u)|;
    assert forall u :: u in Completers(tasks) <==> CompletedBy(tasks, u) != {} by {
      forall u ensures u in Completers(tasks) <==> CompletedBy(tasks, u) != {} {
        if CompletedBy(tasks, u) != {} {
          var id :| id in CompletedBy(tasks, u);
          assert tasks[id].geclaimdDoor.value == u;
        }
        if u in Completers(tasks) {
          var id :| id in tasks && tasks[id].status == Afgerond && tasks[id].geclaimdDoor.Some?
            && tasks[id].geclaimdDoor.value == u;
          assert id in CompletedBy(tasks, u);
        }
      }
    }
    r
  }
}
