/** The iCalendar serialiser (src/lib/ical.ts): the UTC DATE-TIME form of
    section 3.3.5 of RFC 5545, TEXT escaping of section 3.3.11, content-line
    folding of section 3.1, and the feed that strings them together. Lines
    are sequences of characters; the source counts UTF-16 code units. */
module ICal {
  import opened Common
  import opened Store

  const CRLF: string := "\r\n"

  // ---------------------------------------------------------------------
  // Dates
  // ---------------------------------------------------------------------

  /** A UTC calendar breakdown of an instant. */
  datatype UtcTime = UtcTime(year: int, month: int, day: int, hour: int, minute: int, second: int)

  /** Proleptic Gregorian (year, month, day) of a day number counted from
      1970-01-01, as `Date.prototype.toISOString` renders it. */
  function CivilFromDays(days: int): (int, int, int) {
    var z := days + 719468;
    var era := z / 146097;
    var doe := z - era * 146097;
    var yoe := (doe - doe / 1460 + doe / 36524 - doe / 146096) / 365;
    var doy := doe - (365 * yoe + yoe / 4 - yoe / 100);
    var mp := (5 * doy + 2) / 153;
    var d := doy - (153 * mp + 2) / 5 + 1;
    var m := if mp < 10 then mp + 3 else mp - 9;
    (yoe + era * 400 + (if m <= 2 then 1 else 0), m, d)
  }

  /** The UTC breakdown of an instant in milliseconds (sub-second part dropped). */
  function UtcOf(ms: int): UtcTime {
    var secs := ms % DayMs / 1000;
    var ymd := CivilFromDays(ms / DayMs);
    UtcTime(ymd.0, ymd.1, ymd.2, secs / 60 / 60, secs / 60 % 60, secs % 60)
  }

  /** The hour, minute and second of the breakdown are in range and, with
      the day number, give back the instant to the second. */
  lemma TimeOfDayExact(ms: int)
    ensures var u := UtcOf(ms);
      && 0 <= u.hour < 24 && 0 <= u.minute < 60 && 0 <= u.second < 60
      && (ms / DayMs) * DayMs + u.hour * 3_600_000 + u.minute * 60_000 + u.second * 1000 + ms % 1000 == ms
  {
    var t := ms % DayMs;
    var secs := t / 1000;
    var r := t % 1000;
    var mins := secs / 60;
    var h, m, sec := mins / 60, mins % 60, secs % 60;
    assert ms == (ms / DayMs) * DayMs + t;
    assert t == secs * 1000 + r;
    assert secs == mins * 60 + sec;
    assert mins == h * 60 + m;
    assert t == h * 3_600_000 + m * 60_000 + sec * 1000 + r;
    ThousandsRemainder((ms / DayMs) * 86_400 + secs, r);
  }

  lemma ThousandsRemainder(k: int, r: int)
    requires 0 <= r < 1000
    ensures (1000 * k + r) % 1000 == r
  {
  }

  /** The last decimal digit of `n`. */
  function Digit(n: int): char {
    "0123456789"[n % 10]
  }

  function DigitValue(c: char): int {
    c as int - '0' as int
  }

  lemma DigitExact(n: int)
    ensures '0' <= Digit(n) <= '9' && DigitValue(Digit(n)) == n % 10
  {
  }

  /** The last two decimal digits of `n`, zero-padded. */
  function TwoDigits(n: int): string {
    [Digit(n / 10), Digit(n)]
  }

  /** Two digits read back give the number, for numbers below 100. */
  lemma TwoDigitsRoundTrip(n: int)
    requires 0 <= n < 100
    ensures 10 * DigitValue(TwoDigits(n)[0]) + DigitValue(TwoDigits(n)[1]) == n
  {
    DigitExact(n / 10);
    DigitExact(n);
  }

  /** The year as `toISOString` writes it, with its '-' removed: four digits
      for years 0..9999, otherwise six digits after a sign ('+' kept, '-'
      stripped with the other hyphens). */
  function IsoYear(y: int): string {
    if 0 <= y <= 9999 then [Digit(y / 1000), Digit(y / 100), Digit(y / 10), Digit(y)]
    else
      var a := if y < 0 then -y else y;
      (if y < 0 then "" else "+")
      + [Digit(a / 100000), Digit(a / 10000), Digit(a / 1000), Digit(a / 100), Digit(a / 10), Digit(a)]
  }

  /** YYYYMMDD. */
  function DatePart(u: UtcTime): string {
    IsoYear(u.year) + TwoDigits(u.month) + TwoDigits(u.day)
  }

  /** HHMMSS. */
  function TimePart(u: UtcTime): string {
    TwoDigits(u.hour) + TwoDigits(u.minute) + TwoDigits(u.second)
  }

  /** The basic DATE-TIME text of a breakdown. */
  function FormatUtc(u: UtcTime): string {
    DatePart(u) + "T" + TimePart(u) + "Z"
  }

  /** `formatICalDate`: `toISOString()` with hyphens, colons and the
      milliseconds removed. */
  function FormatICalDate(ms: int): string {
    FormatUtc(UtcOf(ms))
  }

  predicate AllDigits(s: string) {
    forall i | 0 <= i < |s| :: '0' <= s[i] <= '9'
  }

  lemma DigitsAppend(a: string, b: string)
    requires AllDigits(a) && AllDigits(b)
    ensures AllDigits(a + b)
  {
    forall i | 0 <= i < |a + b| ensures '0' <= (a + b)[i] <= '9' {
      if i < |a| {
        assert (a + b)[i] == a[i];
      } else {
        assert (a + b)[i] == b[i - |a|];
      }
    }
  }

  lemma TwoDigitsAreDigits(n: int)
    ensures |TwoDigits(n)| == 2 && AllDigits(TwoDigits(n))
  {
    DigitExact(n / 10);
    DigitExact(n);
  }

  /** The date part of a breakdown in years 0..9999 is eight digits, the
      time part six, each field in its place. */
  lemma PartsShape(u: UtcTime)
    requires 0 <= u.year <= 9999
    ensures |DatePart(u)| == 8 && AllDigits(DatePart(u))
    ensures DatePart(u)[4..6] == TwoDigits(u.month) && DatePart(u)[6..8] == TwoDigits(u.day)
    ensures |TimePart(u)| == 6 && AllDigits(TimePart(u))
    ensures TimePart(u)[..2] == TwoDigits(u.hour) && TimePart(u)[2..4] == TwoDigits(u.minute)
    ensures TimePart(u)[4..] == TwoDigits(u.second)
  {
    var y := IsoYear(u.year);
    DigitExact(u.year / 1000);
    DigitExact(u.year / 100);
    DigitExact(u.year / 10);
    DigitExact(u.year);
    assert |y| == 4 && AllDigits(y);
    TwoDigitsAreDigits(u.month);
    TwoDigitsAreDigits(u.day);
    TwoDigitsAreDigits(u.hour);
    TwoDigitsAreDigits(u.minute);
    TwoDigitsAreDigits(u.second);
    DigitsAppend(y, TwoDigits(u.month));
    DigitsAppend(y + TwoDigits(u.month), TwoDigits(u.day));
    DigitsAppend(TwoDigits(u.hour), TwoDigits(u.minute));
    DigitsAppend(TwoDigits(u.hour) + TwoDigits(u.minute), TwoDigits(u.second));
  }

  /** For a four-digit year the text is YYYYMMDDTHHMMSSZ: sixteen characters,
      'T' at index 8, 'Z' last, digits elsewhere, each field in its place. */
  lemma FormatUtcShape(u: UtcTime)
    requires 0 <= u.year <= 9999
    ensures var r := FormatUtc(u);
      && |r| == 16 && r[8] == 'T' && r[15] == 'Z'
      && r[4..6] == TwoDigits(u.month) && r[6..8] == TwoDigits(u.day)
      && r[9..11] == TwoDigits(u.hour) && r[11..13] == TwoDigits(u.minute) && r[13..15] == TwoDigits(u.second)
      && forall i | 0 <= i < 16 && i != 8 && i != 15 :: '0' <= r[i] <= '9'
  {
    var r := FormatUtc(u);
    var date, time := DatePart(u), TimePart(u);
    PartsShape(u);
    assert r[..8] == date;
    assert r[9..15] == time;
    assert r[4..6] == date[4..6];
    assert r[6..8] == date[6..8];
    assert r[9..11] == time[..2];
    assert r[11..13] == time[2..4];
    assert r[13..15] == time[4..];
    forall i | 0 <= i < 16 && i != 8 && i != 15 ensures '0' <= r[i] <= '9' {
      if i < 8 {
        assert r[i] == date[i];
      } else {
        assert r[i] == time[i - 9];
      }
    }
  }

  /** For years 0..9999 the result is the 16-character basic form
      YYYYMMDDTHHMMSSZ, and its time part reads back as the instant's UTC
      time of day to the second. */
  lemma FormatICalDateShape(ms: int)
    requires 0 <= UtcOf(ms).year <= 9999
    ensures var r := FormatICalDate(ms);
      && |r| == 16 && r[8] == 'T' && r[15] == 'Z'
      && (forall i | 0 <= i < 16 && i != 8 && i != 15 :: '0' <= r[i] <= '9')
      && TwoValue(r[9..11]) * 3_600_000 + TwoValue(r[11..13]) * 60_000 + TwoValue(r[13..15]) * 1000
         == ms % DayMs - ms % 1000
  {
    var u := UtcOf(ms);
    FormatUtcShape(u);
    TimeOfDayExact(ms);
    TwoDigitsRoundTrip(u.hour);
    TwoDigitsRoundTrip(u.minute);
    TwoDigitsRoundTrip(u.second);
  }

  /** The number two decimal digits spell. */
  function TwoValue(s: string): int
    requires |s| == 2
  {
    10 * DigitValue(s[0]) + DigitValue(s[1])
  }

  // ---------------------------------------------------------------------
  // TEXT escaping
  // ---------------------------------------------------------------------

  /** `s.replace(/c/g, rep)` for a single character `c`. */
  function ReplaceAll(s: string, c: char, rep: string): string {
    if s == [] then "" else (if s[0] == c then rep else [s[0]]) + ReplaceAll(s[1..], c, rep)
  }

  /** `escapeICalText`, as the chain of four global replacements it is written as. */
  function EscapeICalText(s: string): string {
    ReplaceAll(ReplaceAll(ReplaceAll(ReplaceAll(s, '\\', "\\\\"), ';', "\\;"), ',', "\\,"), '\n', "\\n")
  }

  /** The escape of one character: a backslash before `\`, `;` and `,`, and
      `\n` for a line feed; every other character (CR included) as is. */
  function EscapeChar(c: char): string {
    if c == '\\' then "\\\\" else if c == ';' then "\\;" else if c == ',' then "\\,"
    else if c == '\n' then "\\n" else [c]
  }

  /** Character-by-character escaping. */
  function EscapeEach(s: string): string {
    if s == [] then "" else EscapeChar(s[0]) + EscapeEach(s[1..])
  }

  lemma {:induction false} ReplaceAllAppend(a: string, b: string, c: char, rep: string)
    ensures ReplaceAll(a + b, c, rep) == ReplaceAll(a, c, rep) + ReplaceAll(b, c, rep)
  {
    if a == [] {
      assert a + b == b;
    } else {
      assert (a + b)[1..] == a[1..] + b;
      ReplaceAllAppend(a[1..], b, c, rep);
    }
  }

  /** The replacement chain escapes each character on its own: no step
      rewrites what an earlier one inserted. */
  lemma {:induction false} EscapeChainIsPerCharacter(s: string)
    ensures EscapeICalText(s) == EscapeEach(s)
  {
    if s != [] {
      var x, rest := [s[0]], s[1..];
      assert s == x + rest;
      var s1a, s1b := ReplaceAll(x, '\\', "\\\\"), ReplaceAll(rest, '\\', "\\\\");
      ReplaceAllAppend(x, rest, '\\', "\\\\");
      var s2a, s2b := ReplaceAll(s1a, ';', "\\;"), ReplaceAll(s1b, ';', "\\;");
      ReplaceAllAppend(s1a, s1b, ';', "\\;");
      var s3a, s3b := ReplaceAll(s2a, ',', "\\,"), ReplaceAll(s2b, ',', "\\,");
      ReplaceAllAppend(s2a, s2b, ',', "\\,");
      ReplaceAllAppend(s3a, s3b, '\n', "\\n");
      assert EscapeICalText(s) == EscapeICalText(x) + EscapeICalText(rest);
      EscapeChainIsPerCharacter(rest);
      EscapeOneCharacter(s[0]);
    }
  }

  lemma {:induction false} ReplaceAllAbsent(s: string, c: char, rep: string)
    requires c !in s
    ensures ReplaceAll(s, c, rep) == s
  {
    if s != [] {
      ReplaceAllAbsent(s[1..], c, rep);
      assert s == [s[0]] + s[1..];
    }
  }

  lemma ReplaceAllSingle(x: char, c: char, rep: string)
    ensures ReplaceAll([x], c, rep) == if x == c then rep else [x]
  {
    assert [x][1..] == [];
    assert (if x == c then rep else [x]) + "" == (if x == c then rep else [x]);
  }

  lemma EscapeOneCharacter(c: char)
    ensures EscapeICalText([c]) == EscapeChar(c)
  {
    ReplaceAllSingle(c, '\\', "\\\\");
    var s1 := ReplaceAll([c], '\\', "\\\\");
    var s2 := ReplaceAll(s1, ';', "\\;");
    if c == ';' {
      ReplaceAllSingle(c, ';', "\\;");
    } else {
      ReplaceAllAbsent(s1, ';', "\\;");
    }
    var s3 := ReplaceAll(s2, ',', "\\,");
    if c == ',' {
      ReplaceAllSingle(c, ',', "\\,");
    } else {
      ReplaceAllAbsent(s2, ',', "\\,");
    }
    if c == '\n' {
      ReplaceAllSingle(c, '\n', "\\n");
    } else {
      ReplaceAllAbsent(s3, '\n', "\\n");
    }
  }

  /** Decoding per section 3.3.11 of RFC 5545: `\\`, `\;`, `\,` stand for the
      character after the backslash and `\n` or `\N` for a line feed. */
  function Unescape(s: string): string
    decreases |s|
  {
    if s == [] then ""
    else if s[0] == '\\' && |s| >= 2 then
      (if s[1] == 'n' || s[1] == 'N' then "\n" else [s[1]]) + Unescape(s[2..])
    else [s[0]] + Unescape(s[1..])
  }

  /** Decoding inverts `escapeICalText`. */
  lemma {:induction false} UnescapeEscape(s: string)
    ensures Unescape(EscapeICalText(s)) == s
  {
    EscapeChainIsPerCharacter(s);
    UnescapeEach(s);
  }

  lemma {:induction false} UnescapeEach(s: string)
    ensures Unescape(EscapeEach(s)) == s
  {
    if s != [] {
      var e := EscapeChar(s[0]);
      var rest := EscapeEach(s[1..]);
      UnescapeEach(s[1..]);
      if |e| == 2 {
        assert (e + rest)[2..] == rest;
      } else {
        assert (e + rest)[1..] == rest;
      }
      assert s == [s[0]] + s[1..];
    }
  }

  /** Escaping is injective: distinct texts never share an escape. */
  lemma EscapeInjective(a: string, b: string)
    ensures EscapeICalText(a) == EscapeICalText(b) ==> a == b
  {
    UnescapeEscape(a);
    UnescapeEscape(b);
  }

  /** An escaped text holds no line feed, and a carriage return exactly where the input has one. */
  lemma {:induction false} EscapeLeavesNoLineFeed(s: string)
    ensures '\n' !in EscapeICalText(s)
    ensures '\r' in EscapeICalText(s) <==> '\r' in s
  {
    EscapeChainIsPerCharacter(s);
    EscapeEachLeavesNoLineFeed(s);
  }

  lemma {:induction false} EscapeEachLeavesNoLineFeed(s: string)
    ensures '\n' !in EscapeEach(s)
    ensures '\r' in EscapeEach(s) <==> '\r' in s
  {
    if s != [] {
      EscapeEachLeavesNoLineFeed(s[1..]);
      assert s == [s[0]] + s[1..];
    }
  }

  // ---------------------------------------------------------------------
  // Line folding
  // ---------------------------------------------------------------------

  const MaxLen: nat := 75

  /** The continuation pieces of a long line's tail: a space and then at most 74 characters each. */
  function Chunks(rest: string): seq<string>
    decreases |rest|
  {
    if rest == [] then []
    else
      var k := if |rest| < MaxLen - 1 then |rest| else MaxLen - 1;
      [" " + rest[..k]] + Chunks(rest[k..])
  }

  /** The physical lines `foldLine` produces. */
  function FoldParts(line: string): seq<string> {
    if |line| <= MaxLen then [line] else [line[..MaxLen]] + Chunks(line[MaxLen..])
  }

  /** `foldLine(line)`. */
  function Fold(line: string): string {
    Join(FoldParts(line), CRLF)
  }

  function Min(a: int, b: int): int {
    if a <= b then a else b
  }

  /** `foldLine`: push the first 75 characters, then a space plus the next 74
      while characters remain, and join the pieces with CRLF. */
  method FoldLine(line: string) returns (r: string)
    ensures r == Fold(line)
  {
    if |line| <= MaxLen {
      assert FoldParts(line) == [line];
      return line;
    }
    var parts := [line[..MaxLen]];
    var pos := MaxLen;
    while pos < |line|
      invariant MaxLen <= pos
      invariant parts + Chunks(line[Min(pos, |line|)..]) == FoldParts(line)
      decreases |line| - pos
    {
      var end := Min(pos + MaxLen - 1, |line|);
      assert line[pos..][..end - pos] == line[pos..end];
      assert line[pos..][end - pos..] == line[end..];
      parts := parts + [" " + line[pos..end]];
      pos := pos + MaxLen - 1;
    }
    assert line[Min(pos, |line|)..] == [];
    assert parts + [] == parts;
    assert parts == FoldParts(line);
    r := Join(parts, CRLF);
  }

  /** A line of at most 75 characters is left as it is; otherwise the first
      physical line holds its first 75 characters and every continuation is
      a space followed by 1..74 characters, so no physical line is longer
      than 75; without a carriage return in the input, none appears in a piece. */
  lemma FoldPartsShape(line: string)
    ensures |line| <= MaxLen ==> Fold(line) == line
    ensures |line| > MaxLen ==> FoldParts(line)[0] == line[..MaxLen]
    ensures forall i | 0 <= i < |FoldParts(line)| :: |FoldParts(line)[i]| <= MaxLen
    ensures forall i | 1 <= i < |FoldParts(line)| :: 2 <= |FoldParts(line)[i]| && FoldParts(line)[i][0] == ' '
    ensures '\r' !in line ==> forall i | 0 <= i < |FoldParts(line)| :: '\r' !in FoldParts(line)[i]
  {
    if |line| > MaxLen {
      ChunksShape(line[MaxLen..]);
    }
  }

  lemma {:induction false} ChunksShape(rest: string)
    ensures forall i | 0 <= i < |Chunks(rest)| ::
      2 <= |Chunks(rest)[i]| <= MaxLen && Chunks(rest)[i][0] == ' '
    ensures '\r' !in rest ==> forall i | 0 <= i < |Chunks(rest)| :: '\r' !in Chunks(rest)[i]
  {
    if rest != [] {
      var k := if |rest| < MaxLen - 1 then |rest| else MaxLen - 1;
      ChunksShape(rest[k..]);
      var c := Chunks(rest);
      assert c == [" " + rest[..k]] + Chunks(rest[k..]);
      assert forall i | 1 <= i < |c| :: c[i] == Chunks(rest[k..])[i - 1];
      assert '\r' !in rest ==> '\r' !in rest[..k] && '\r' !in rest[k..] by {
        assert rest == rest[..k] + rest[k..];
      }
    }
  }

  /** Unfolding per section 3.1 of RFC 5545: every CRLF followed by one space is removed. */
  function Unfold(s: string): string
    decreases |s|
  {
    if |s| >= 3 && s[..3] == CRLF + " " then Unfold(s[3..])
    else if s == [] then ""
    else [s[0]] + Unfold(s[1..])
  }

  /** The folded tail as one string: CRLF, a space and the next piece, repeated. */
  function ChunksJoined(rest: string): string
    decreases |rest|
  {
    if rest == [] then ""
    else
      var k := if |rest| < MaxLen - 1 then |rest| else MaxLen - 1;
      CRLF + " " + rest[..k] + ChunksJoined(rest[k..])
  }

  lemma {:induction false} JoinChunks(first: string, rest: string)
    ensures Join([first] + Chunks(rest), CRLF) == first + ChunksJoined(rest)
    decreases |rest|
  {
    if rest != [] {
      var k := if |rest| < MaxLen - 1 then |rest| else MaxLen - 1;
      var next := " " + rest[..k];
      assert ([first] + Chunks(rest))[1..] == [next] + Chunks(rest[k..]);
      JoinChunks(next, rest[k..]);
    } else {
      assert [first] + Chunks(rest) == [first];
    }
  }

  lemma {:induction false} UnfoldPlain(a: string, rest: string)
    requires '\r' !in a
    ensures Unfold(a + rest) == a + Unfold(rest)
  {
    if a != [] {
      assert (a + rest)[0] == a[0];
      assert (a + rest)[1..] == a[1..] + rest;
      UnfoldPlain(a[1..], rest);
    } else {
      assert a + rest == rest;
    }
  }

  lemma {:induction false} UnfoldChunks(rest: string)
    requires '\r' !in rest
    ensures Unfold(ChunksJoined(rest)) == rest
    decreases |rest|
  {
    if rest != [] {
      var k := if |rest| < MaxLen - 1 then |rest| else MaxLen - 1;
      var tail := rest[..k] + ChunksJoined(rest[k..]);
      var s := CRLF + " " + rest[..k] + ChunksJoined(rest[k..]);
      assert s == CRLF + " " + tail;
      assert s[..3] == CRLF + " " && s[3..] == tail;
      assert rest == rest[..k] + rest[k..];
      UnfoldPlain(rest[..k], ChunksJoined(rest[k..]));
      UnfoldChunks(rest[k..]);
    }
  }

  /** Unfolding a folded line gives the line back, for a line without carriage returns. */
  lemma UnfoldFold(line: string)
    requires '\r' !in line
    ensures Unfold(Fold(line)) == line
  {
    if |line| <= MaxLen {
      UnfoldPlain(line, "");
      assert line + "" == line;
    } else {
      JoinChunks(line[..MaxLen], line[MaxLen..]);
      assert line == line[..MaxLen] + line[MaxLen..];
      UnfoldPlain(line[..MaxLen], ChunksJoined(line[MaxLen..]));
      UnfoldChunks(line[MaxLen..]);
    }
  }

  /** A folded line is the line itself exactly when it needs no folding;
      otherwise it is longer than 75 characters. */
  lemma FoldShortOrLong(line: string)
    ensures |line| <= MaxLen ==> Fold(line) == line
    ensures |line| > MaxLen ==> |Fold(line)| > MaxLen
  {
    if |line| > MaxLen {
      JoinChunks(line[..MaxLen], line[MaxLen..]);
    }
  }

  // ---------------------------------------------------------------------
  // The feed
  // ---------------------------------------------------------------------

  /** The event fields the feed reads. */
  datatype CalendarEvent = CalendarEvent(
    id: Id, eventType: EventType, titel: string, beschrijving: Option<string>,
    datum: int, eindtijd: Option<int>, locatie: Option<string>, createdAt: int)

  /** `EVENT_TYPE_LABELS`. */
  function EventTypeLabel(t: EventType): string {
    match t
    case Wedstrijd => "Wedstrijd"
    case Training => "Training"
    case Onderhoud => "Onderhoud"
    case Sociaal => "Sociaal"
  }

  const Header: seq<string> := [
    "BEGIN:VCALENDAR",
    "VERSION:2.0",
    "PRODID:-//CrewPlanner//NL",
    "CALSCALE:GREGORIAN",
    "METHOD:PUBLISH",
    "X-WR-CALNAME:CrewPlanner",
    "REFRESH-INTERVAL;VALUE=DURATION:PT1H",
    "X-PUBLISHED-TTL:PT1H"
  ]

  /** A property value as the feed writes it: verbatim, as escaped TEXT, or as a UTC DATE-TIME. */
  datatype Value = Raw(raw: string) | Escaped(text: string) | Stamp(ms: int)

  /** One content line before folding: `name:value`. */
  datatype Property = Property(name: string, value: Value)

  function ValueText(v: Value): string {
    match v
    case Raw(s) => s
    case Escaped(s) => EscapeICalText(s)
    case Stamp(ms) => FormatICalDate(ms)
  }

  function ContentLine(p: Property): string {
    p.name + ":" + ValueText(p.value)
  }

  /** The properties of one event's VEVENT, in the order they are pushed.
      `appUrl` is the application's base URL. */
  function EventProperties(e: CalendarEvent, appUrl: string): seq<Property> {
    [Property("UID", Raw(e.id + "@crew-planner.vercel.app")),
     Property("DTSTAMP", Stamp(e.createdAt)),
     Property("DTSTART", Stamp(e.datum))]
    + (if e.eindtijd.Some? then [Property("DTEND", Stamp(e.eindtijd.value))] else [])
    + [Property("SUMMARY", Escaped(e.titel))]
    + (if Truthy(e.beschrijving) then [Property("DESCRIPTION", Escaped(e.beschrijving.value))] else [])
    + (if Truthy(e.locatie) then [Property("LOCATION", Escaped(e.locatie.value))] else [])
    + [Property("URL", Raw(appUrl + "/evenementen/" + e.id)),
       Property("CATEGORIES", Raw(EventTypeLabel(e.eventType)))]
  }

  /** The content lines of `props`. */
  function Lines(props: seq<Property>): (r: seq<string>)
    ensures |r| == |props|
  {
    seq(|props|, i requires 0 <= i < |props| => ContentLine(props[i]))
  }

  /** The unfolded content lines of one event. */
  function EventLines(e: CalendarEvent, appUrl: string): seq<string> {
    Lines(EventProperties(e, appUrl))
  }

  /** Each line folded. */
  function FoldAll(lines: seq<string>): (r: seq<string>)
    ensures |r| == |lines|
  {
    seq(|lines|, i requires 0 <= i < |lines| => Fold(lines[i]))
  }

  lemma FoldAllSnoc(lines: seq<string>, i: nat)
    requires i < |lines|
    ensures FoldAll(lines[..i + 1]) == FoldAll(lines[..i]) + [Fold(lines[i])]
  {
  }

  /** The lines of one event's VEVENT block. */
  function EventBlock(e: CalendarEvent, appUrl: string): seq<string> {
    ["BEGIN:VEVENT"] + FoldAll(EventLines(e, appUrl)) + ["END:VEVENT"]
  }

  /** The VEVENT blocks of `events`, one after another in input order. */
  function Blocks(events: seq<CalendarEvent>, appUrl: string): seq<string> {
    if events == [] then [] else Blocks(events[..|events| - 1], appUrl) + EventBlock(events[|events| - 1], appUrl)
  }

  function FeedLines(events: seq<CalendarEvent>, appUrl: string): seq<string> {
    Header + Blocks(events, appUrl) + ["END:VCALENDAR"]
  }

  /** Pushes BEGIN:VEVENT, each content line folded, and END:VEVENT onto `lines`. */
  method PushBlock(lines: seq<string>, content: seq<string>) returns (out: seq<string>)
    ensures out == lines + ["BEGIN:VEVENT"] + FoldAll(content) + ["END:VEVENT"]
  {
    out := lines + ["BEGIN:VEVENT"];
    var i := 0;
    while i < |content|
      invariant 0 <= i <= |content|
      invariant out == lines + ["BEGIN:VEVENT"] + FoldAll(content[..i])
    {
      var folded := FoldLine(content[i]);
      FoldAllSnoc(content, i);
      out := out + [folded];
      i := i + 1;
    }
    assert content[..i] == content;
    out := out + ["END:VEVENT"];
  }

  /** Pushes one event's block onto `lines`. */
  method PushEvent(lines: seq<string>, e: CalendarEvent, appUrl: string) returns (out: seq<string>)
    ensures out == lines + EventBlock(e, appUrl)
  {
    var content := EventLines(e, appUrl);
    out := PushBlock(lines, content);
    AppendAssoc4(lines, ["BEGIN:VEVENT"], FoldAll(content), ["END:VEVENT"]);
  }

  lemma AppendAssoc4(a: seq<string>, b: seq<string>, c: seq<string>, d: seq<string>)
    ensures a + b + c + d == a + (b + c + d)
  {
  }

  lemma AppendAssoc(a: seq<string>, b: seq<string>, c: seq<string>)
    ensures (a + b) + c == a + (b + c)
  {
  }

  lemma BlocksSnoc(events: seq<CalendarEvent>, i: nat, appUrl: string)
    requires i < |events|
    ensures Blocks(events[..i + 1], appUrl) == Blocks(events[..i], appUrl) + EventBlock(events[i], appUrl)
  {
    assert events[..i + 1][..i] == events[..i];
  }

  /** `generateICalFeed(events)`. */
  method GenerateICalFeed(events: seq<CalendarEvent>, appUrl: string) returns (feed: string)
    ensures feed == Join(FeedLines(events, appUrl), CRLF)
  {
    var lines := Header;
    var i := 0;
    assert Blocks(events[..0], appUrl) == [];
    while i < |events|
      invariant 0 <= i <= |events|
      invariant lines == Header + Blocks(events[..i], appUrl)
    {
      BlocksSnoc(events, i, appUrl);
      lines := PushEvent(lines, events[i], appUrl);
      AppendAssoc(Header, Blocks(events[..i], appUrl), EventBlock(events[i], appUrl));
      i := i + 1;
    }
    assert events[..i] == events;
    lines := lines + ["END:VCALENDAR"];
    assert lines == FeedLines(events, appUrl);
    feed := Join(lines, CRLF);
  }

  /** Whether `props` holds a property called `name`. */
  predicate HasProperty(props: seq<Property>, name: string) {
    exists i | 0 <= i < |props| :: props[i].name == name
  }

  /** The names a VEVENT of this feed may use. */
  const PropertyNames: set<string> :=
    {"UID", "DTSTAMP", "DTSTART", "DTEND", "SUMMARY", "DESCRIPTION", "LOCATION", "URL", "CATEGORIES"}

  /** An event has a DTEND property exactly when it has an end time, a
      DESCRIPTION exactly when its description is non-empty and a LOCATION
      exactly when its location is non-empty, each carrying that field; the
      other six properties are always there. */
  lemma EventPropertiesShape(e: CalendarEvent, appUrl: string)
    ensures var ps := EventProperties(e, appUrl);
      && (HasProperty(ps, "DTEND") <==> e.eindtijd.Some?)
      && (HasProperty(ps, "DESCRIPTION") <==> Truthy(e.beschrijving))
      && (HasProperty(ps, "LOCATION") <==> Truthy(e.locatie))
      && (e.eindtijd.Some? ==> Property("DTEND", Stamp(e.eindtijd.value)) in ps)
      && (Truthy(e.beschrijving) ==> Property("DESCRIPTION", Escaped(e.beschrijving.value)) in ps)
      && (Truthy(e.locatie) ==> Property("LOCATION", Escaped(e.locatie.value)) in ps)
      && ps[..3] == [Property("UID", Raw(e.id + "@crew-planner.vercel.app")),
                     Property("DTSTAMP", Stamp(e.createdAt)), Property("DTSTART", Stamp(e.datum))]
      && Property("SUMMARY", Escaped(e.titel)) in ps
      && ps[|ps| - 2..] == [Property("URL", Raw(appUrl + "/evenementen/" + e.id)),
                            Property("CATEGORIES", Raw(EventTypeLabel(e.eventType)))]
      && forall i | 0 <= i < |ps| :: ps[i].name in PropertyNames
  {
    var ps := EventProperties(e, appUrl);
    var d := if e.eindtijd.Some? then 1 else 0;
    var b := if Truthy(e.beschrijving) then 1 else 0;
    var l := if Truthy(e.locatie) then 1 else 0;
    assert |ps| == 6 + d + b + l;
    assert ps[3 + d] == Property("SUMMARY", Escaped(e.titel));
    assert e.eindtijd.Some? ==> ps[3].name == "DTEND";
    assert Truthy(e.beschrijving) ==> ps[4 + d].name == "DESCRIPTION";
    assert Truthy(e.locatie) ==> ps[4 + d + b].name == "LOCATION";
    assert forall i | 0 <= i < |ps| ::
      || ps[i].name in {"UID", "DTSTAMP", "DTSTART", "SUMMARY", "URL", "CATEGORIES"}
      || (ps[i].name == "DTEND" && e.eindtijd.Some?)
      || (ps[i].name == "DESCRIPTION" && Truthy(e.beschrijving))
      || (ps[i].name == "LOCATION" && Truthy(e.locatie));
  }

  /** Every block opens with BEGIN:VEVENT, closes with END:VEVENT, and holds
      in between the folded content line of each of the event's properties. */
  lemma EventBlockShape(e: CalendarEvent, appUrl: string)
    ensures var b := EventBlock(e, appUrl);
      var ps := EventProperties(e, appUrl);
      && |b| == |ps| + 2
      && b[0] == "BEGIN:VEVENT" && b[|b| - 1] == "END:VEVENT"
      && forall i | 0 <= i < |ps| :: b[i + 1] == Fold(ContentLine(ps[i]))
  {
    var ps := EventProperties(e, appUrl);
  }

  /** The feed opens with the eight header lines, closes with END:VCALENDAR,
      and holds between them each event's block in input order. */
  lemma FeedShape(events: seq<CalendarEvent>, appUrl: string)
    ensures var f := FeedLines(events, appUrl);
      && f[..8] == Header && f[|f| - 1] == "END:VCALENDAR"
      && f[8..|f| - 1] == Blocks(events, appUrl)
    ensures events != [] ==>
      Blocks(events, appUrl) == EventBlock(events[0], appUrl) + Blocks(events[1..], appUrl)
  {
    if events != [] {
      BlocksCons(events, appUrl);
    }
  }

  lemma {:induction false} BlocksCons(events: seq<CalendarEvent>, appUrl: string)
    requires events != []
    ensures Blocks(events, appUrl) == EventBlock(events[0], appUrl) + Blocks(events[1..], appUrl)
    decreases |events|
  {
    if |events| > 1 {
      var init := events[..|events| - 1];
      BlocksCons(init, appUrl);
      assert init[0] == events[0];
      assert init[1..] == events[1..][..|events[1..]| - 1];
    } else {
      assert events[..0] == [];
      assert events[1..] == [];
    }
  }

  /** Exactly one BEGIN:VEVENT line per event. */
  lemma {:induction false} OneBlockPerEvent(events: seq<CalendarEvent>, appUrl: string)
    ensures Count(Blocks(events, appUrl), (l: string) => l == "BEGIN:VEVENT") == |events|
  {
    if events != [] {
      var init := events[..|events| - 1];
      OneBlockPerEvent(init, appUrl);
      CountAppend(Blocks(init, appUrl), EventBlock(events[|events| - 1], appUrl), (l: string) => l == "BEGIN:VEVENT");
      OneBeginPerBlock(events[|events| - 1], appUrl);
    }
  }

  /** A folded property line never reads BEGIN:VEVENT: it starts with the
      property's name, and no property is called BEGIN. */
  lemma NotBegin(p: Property)
    requires p.name in PropertyNames
    ensures Fold(ContentLine(p)) != "BEGIN:VEVENT"
  {
    var line := ContentLine(p);
    FoldShortOrLong(line);
    assert line[0] == p.name[0] != 'B';
  }

  /** No folded line of properties with these names reads BEGIN:VEVENT. */
  lemma NoBeginAmong(ps: seq<Property>)
    requires forall i | 0 <= i < |ps| :: ps[i].name in PropertyNames
    ensures Count(FoldAll(Lines(ps)), (l: string) => l == "BEGIN:VEVENT") == 0
  {
    var folded := FoldAll(Lines(ps));
    forall i | 0 <= i < |folded| ensures folded[i] != "BEGIN:VEVENT" {
      NotBegin(ps[i]);
    }
    CountNone(folded, (l: string) => l == "BEGIN:VEVENT");
  }

  lemma OneBeginPerBlock(e: CalendarEvent, appUrl: string)
    ensures Count(EventBlock(e, appUrl), (l: string) => l == "BEGIN:VEVENT") == 1
  {
    var folded := FoldAll(EventLines(e, appUrl));
    var p := (l: string) => l == "BEGIN:VEVENT";
    EventPropertiesShape(e, appUrl);
    NoBeginAmong(EventProperties(e, appUrl));
    CountAppend(["BEGIN:VEVENT"], folded + ["END:VEVENT"], p);
    CountAppend(folded, ["END:VEVENT"], p);
    assert EventBlock(e, appUrl) == ["BEGIN:VEVENT"] + (folded + ["END:VEVENT"]);
  }
}
