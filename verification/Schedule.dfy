/**
 Quota Reset Schedules: when quota periods reset, and the time zones they are read in.
 */
module Schedule {
  import opened Wrappers
  import opened Civil

  /** A quota period. The first three reset and can be pinned; Total never resets; Other stands for
      every other stored text ("none", the empty text, an unknown word). */
  datatype Period = Daily | Weekly | Monthly | Total | Other(name: string)

  const SCHEDULED: seq<Period> := [Daily, Weekly, Monthly]

  predicate Scheduled(period: Period) {
    period.Daily? || period.Weekly? || period.Monthly?
  }

  /** Instants are seconds since 1970-01-01 00:00 UTC; civil times are the same count read off a
      wall clock. `offset` is the zone's offset at an instant, `civilOffset` the offset by which the
      zone turns a civil time into an instant (any choice is allowed in a gap or an overlap). */
  datatype Zone = Zone(offset: int -> int, civilOffset: int -> int)
  {
    function WallClock(now: int): int {
      now + offset(now)
    }

    function Instant(civil: int): int {
      civil - civilOffset(civil)
    }
  }

  /** The zone database: the zones that load, by name. */
  type TzDb = string -> Option<Zone>

  /** weekday: 1 = Monday .. 7 = Sunday; day: 1..31. */
  datatype ResetSchedule = ResetSchedule(timezone: string, clock: string, weekday: int, day: int)

  predicate NameAllowed(timezone: string) {
    timezone != "" && timezone != "Local" && |timezone| <= 64
  }

  /** What the settings form accepts. */
  predicate Validate(tz: TzDb, sched: ResetSchedule) {
    && NameAllowed(sched.timezone)
    && tz(sched.timezone).Some?
    && ParseClock(sched.clock).Some?
    && 1 <= sched.weekday <= 7
    && 1 <= sched.day <= 31
  }

  /** The zone of a schedule that window math can use; None stands for "use the default windows". */
  function Load(tz: TzDb, sched: Option<ResetSchedule>): Option<Zone> {
    if sched.None? || !NameAllowed(sched.value.timezone) then None
    else tz(sched.value.timezone)
  }

  function Digit(c: char): Option<int> {
    if '0' <= c <= '9' then Some(c as int - '0' as int) else None
  }

  /** Minutes since midnight of a clock text: two digits, a colon, two digits, nothing else. */
  function ParseClock(s: string): (minute: Option<int>)
    ensures minute.Some? ==> 0 <= minute.value < 24 * 60
  {
    if |s| != 5 || s[2] != ':' then None
    else
      var h1, h2, m1, m2 := Digit(s[0]), Digit(s[1]), Digit(s[3]), Digit(s[4]);
      if h1.None? || h2.None? || m1.None? || m2.None? then None
      else
        var h, m := 10 * h1.value + h2.value, 10 * m1.value + m2.value;
        if h > 23 || m > 59 then None else Some(60 * h + m)
  }

  function DigitChar(d: int): char
    requires 0 <= d <= 9
  {
    "0123456789"[d]
  }

  function TwoDigits(n: int): string
    requires 0 <= n <= 99
  {
    [DigitChar(n / 10), DigitChar(n % 10)]
  }

  /** Renders a minute of the day as "HH:MM". */
  function FormatClock(minute: int): (s: string)
    requires 0 <= minute < 24 * 60
  {
    TwoDigits(minute / 60) + [':'] + TwoDigits(minute % 60)
  }

  lemma DigitPair(c: char, d: char)
    requires Digit(c).Some? && Digit(d).Some?
    ensures var n := 10 * Digit(c).value + Digit(d).value; 0 <= n <= 99 && TwoDigits(n) == [c, d]
  {
  }

  lemma TwoDigitsParse(n: int)
    requires 0 <= n <= 99
    ensures var s := TwoDigits(n);
            Digit(s[0]).Some? && Digit(s[1]).Some? && 10 * Digit(s[0]).value + Digit(s[1]).value == n
  {
  }

  /** Every minute of the day parses back from its rendering. */
  lemma FormatThenParse(minute: int)
    requires 0 <= minute < 24 * 60
    ensures ParseClock(FormatClock(minute)) == Some(minute)
  {
    TwoDigitsParse(minute / 60);
    TwoDigitsParse(minute % 60);
  }

  lemma FormatParts(h: int, m: int)
    requires 0 <= h <= 23 && 0 <= m <= 59
    ensures FormatClock(60 * h + m) == TwoDigits(h) + [':'] + TwoDigits(m)
  {
    assert (60 * h + m) / 60 == h && (60 * h + m) % 60 == m;
  }

  lemma ParseParts(s: string) returns (h: int, m: int)
    requires ParseClock(s).Some?
    ensures 0 <= h <= 23 && 0 <= m <= 59 && ParseClock(s) == Some(60 * h + m)
    ensures s == TwoDigits(h) + [':'] + TwoDigits(m)
  {
    hide TwoDigits;
    h, m := 10 * Digit(s[0]).value + Digit(s[1]).value, 10 * Digit(s[3]).value + Digit(s[4]).value;
    DigitPair(s[0], s[1]);
    DigitPair(s[3], s[4]);
    assert s == [s[0], s[1]] + [':'] + [s[3], s[4]];
  }

  /** Only a rendering parses: the text is determined by the minute it parses to. */
  lemma ParseThenFormat(s: string, minute: int)
    requires ParseClock(s) == Some(minute)
    ensures s == FormatClock(minute)
  {
    hide ParseClock, FormatClock, TwoDigits;
    var h, m := ParseParts(s);
    FormatParts(h, m);
  }

  /** Every offset of a real zone is less than a day. */
  ghost predicate Bounded(zone: Zone) {
    forall t :: -DAY < zone.offset(t) < DAY && -DAY < zone.civilOffset(t) < DAY
  }

  /** No calendar day ends before it begins: a reset time never comes earlier on the next date.
      It holds for every zone whose offsets stay within 24 hours of each other. */
  ghost predicate DaysRunForward(zone: Zone) {
    forall civil :: zone.civilOffset(civil + DAY) <= zone.civilOffset(civil) + DAY
  }

  ghost predicate RegularZone(zone: Zone) {
    Bounded(zone) && DaysRunForward(zone)
  }

  ghost predicate Regular(tz: TzDb) {
    forall name :: tz(name).Some? ==> RegularZone(tz(name).value)
  }

  /** A zone whose offsets vary by at most 24 hours in all is regular. */
  lemma NarrowZoneIsRegular(zone: Zone, low: int)
    requires -DAY < low < 0
    requires forall t :: low <= zone.offset(t) <= low + DAY && low <= zone.civilOffset(t) <= low + DAY
    requires forall t :: zone.offset(t) < DAY && zone.civilOffset(t) < DAY
    ensures RegularZone(zone)
  {
  }
}
