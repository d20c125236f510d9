/** The deadline-urgency badge of src/components/events/event-card.tsx:
    days left until the availability deadline (or the event itself), the
    share of invitees who answered and the balance of "available" against
    "not available" answers classify an event as critical, warning, past or
    ok. Ratios are compared by cross-multiplication. */
module EventCard {
  import opened Common
  import opened Store
  import opened RelativeDate

  datatype Urgency = Critical | Warning | Past | Ok

  /** `deadlineBeschikbaarheid ?? datum`. */
  function ReferenceDate(e: Event): int {
    if e.deadline.Some? then e.deadline.value else e.datum
  }

  /** `daysUntil(date)` at instant `now`. */
  function DaysUntil(date: int, now: int): int {
    CeilDays(date - now)
  }

  /** `responseRate < num / den`, where the rate is responded / invited, or 0 without invitees. */
  predicate RateBelow(responded: nat, invited: nat, num: nat, den: nat) {
    if invited > 0 then den * responded < num * invited else 0 < num
  }

  function StatusCount(answers: seq<AvailabilityStatus>, s: AvailabilityStatus): nat {
    Count(answers, (a: AvailabilityStatus) => a == s)
  }

  /** The conflict rule: more "not available" than "available" answers, with at least two answers. */
  predicate Conflict(answers: seq<AvailabilityStatus>) {
    StatusCount(answers, NietBeschikbaar) > StatusCount(answers, Beschikbaar) && |answers| >= 2
  }

  /** `getDeadlineUrgency(event)` at instant `now`, for an event with
      `invited` invitations and the statuses of its availability answers. */
  function DeadlineUrgency(e: Event, invited: nat, answers: seq<AvailabilityStatus>, now: int): Urgency {
    var days := DaysUntil(ReferenceDate(e), now);
    var responded := |answers|;
    if days <= 2 && RateBelow(responded, invited, 1, 2) then Critical
    else if days <= 3 && Conflict(answers) then Critical
    else if days <= 5 && RateBelow(responded, invited, 1, 2) then Warning
    else if days <= 7 && RateBelow(responded, invited, 3, 10) then Warning
    else if days < 0 then Past
    else Urgency.Ok
  }

  /** A rate below 0.3 is below one half. */
  lemma LowRateIsBelowHalf(responded: nat, invited: nat)
    ensures RateBelow(responded, invited, 3, 10) ==> RateBelow(responded, invited, 1, 2)
  {
  }

  /** The classification in closed form, with d the days left, "half" a
      response rate below one half and "low" below 0.3: critical exactly
      when d <= 2 and half, or d <= 3 and the conflict rule fires; warning
      exactly when, without that, d is 3..5 and half or 6..7 and low; past
      exactly when d < 0, at least half answered and no conflict; anything
      more than a week away is ok. Without invitees the rate counts as 0. */
  lemma DeadlineUrgencyExact(e: Event, invited: nat, answers: seq<AvailabilityStatus>, now: int)
    ensures var d := DaysUntil(ReferenceDate(e), now);
      var half := RateBelow(|answers|, invited, 1, 2);
      var low := RateBelow(|answers|, invited, 3, 10);
      var conflict := d <= 3 && Conflict(answers);
      var u := DeadlineUrgency(e, invited, answers, now);
      && (invited == 0 ==> half && low)
      && (u == Critical <==> (d <= 2 && half) || conflict)
      && (u == Warning <==> !conflict && ((3 <= d <= 5 && half) || (6 <= d <= 7 && low)))
      && (u == Past <==> d < 0 && !half && !Conflict(answers))
      && (d > 7 ==> u == Urgency.Ok)
  {
    LowRateIsBelowHalf(|answers|, invited);
  }

  /** The reference date is the availability deadline when there is one, else
      the event's start, and the day count is its distance from now in whole
      days rounded up. */
  lemma DaysUntilReference(e: Event, now: int, d: int)
    ensures DaysUntil(ReferenceDate(e), now) == d <==>
      (d - 1) * DayMs < (if e.deadline.Some? then e.deadline.value else e.datum) - now <= d * DayMs
  {
    CeilDaysExact(ReferenceDate(e) - now, d);
  }

  /** `Math.max(0, totalInvited - responded)`. */
  function NotResponded(invited: nat, responded: nat): nat {
    if invited > responded then invited - responded else 0
  }

  /** Never negative; added to the answers it makes up the invitations
      while answers are fewer, and is zero once they are not. */
  lemma NotRespondedExact(invited: nat, responded: nat)
    ensures responded <= invited ==> NotResponded(invited, responded) + responded == invited
    ensures responded >= invited <==> NotResponded(invited, responded) == 0
  {
  }
}
