/** The relative-date label of src/lib/utils.ts (`relatieveDatum`): the
    whole-day difference between a target instant and now, rounded up, picks
    "Vandaag", "Morgen", "Gisteren", "Over N dagen" or "N dagen geleden"; a
    difference of more than a week falls back to the short date text, which
    is a parameter here (`formatDatumKort` is locale formatting). */
module RelativeDate {
  import opened Common
  import opened Store

  /** `Math.ceil(diffMs / 86_400_000)`. */
  function CeilDays(diffMs: int): int {
    -((-diffMs) / DayMs)
  }

  /** The rounded-up day count d is the one whole number with
      (d - 1) days < diffMs <= d days. */
  lemma CeilDaysExact(diffMs: int, d: int)
    ensures CeilDays(diffMs) == d <==> (d - 1) * DayMs < diffMs <= d * DayMs
  {
    var q := (-diffMs) / DayMs;
    assert q * DayMs <= -diffMs < q * DayMs + DayMs;
  }

  /** `relatieveDatum(date)` at instant `now`; `kort` is `formatDatumKort(date)`. */
  function RelatieveDatum(target: int, now: int, kort: string): string {
    var d := CeilDays(target - now);
    if d == 0 then "Vandaag"
    else if d == 1 then "Morgen"
    else if d == -1 then "Gisteren"
    else if 1 < d <= 7 then "Over " + NatToString(d) + " dagen"
    else if -7 <= d < -1 then NatToString(-d) + " dagen geleden"
    else kort
  }

  /** The label by the distance in milliseconds: up to 24 h back (now
      included) is "Vandaag", up to 24 h ahead "Morgen", the 24 h before that
      "Gisteren", and more than a week away the short date. */
  lemma RelatieveDatumByDistance(target: int, now: int, kort: string)
    ensures var diff, r := target - now, RelatieveDatum(target, now, kort);
      && (-DayMs < diff <= 0 ==> r == "Vandaag")
      && (0 < diff <= DayMs ==> r == "Morgen")
      && (-2 * DayMs < diff <= -DayMs ==> r == "Gisteren")
      && (diff > 7 * DayMs || diff <= -8 * DayMs ==> r == kort)
  {
    var diff := target - now;
    var d := CeilDays(diff);
    CeilDaysExact(diff, d);
    CeilDaysExact(diff, 0);
    CeilDaysExact(diff, 1);
    CeilDaysExact(diff, -1);
  }

  /** Within a week ahead the label counts the days to go, within a week back
      the days gone, the count being the rounded-up whole days. */
  lemma RelatieveDatumWithinWeek(target: int, now: int, kort: string, n: int)
    requires 2 <= n <= 7
    ensures var diff, r := target - now, RelatieveDatum(target, now, kort);
      && ((n - 1) * DayMs < diff <= n * DayMs ==> r == "Over " + NatToString(n) + " dagen")
      && (-(n + 1) * DayMs < diff <= -n * DayMs ==> r == NatToString(n) + " dagen geleden")
  {
    var diff := target - now;
    CeilDaysExact(diff, n);
    CeilDaysExact(diff, -n);
  }
}
