/**
 * The recurrence calculator of lib/recurrence.py.
 *
 * Instants are whole minutes since the Unix epoch and timezone offsets are
 * minutes east of UTC. The two foreign libraries the calculator leans on are
 * inputs (a `World`): the `crontab` library's "next firing" computation and the
 * timezone database's offset at an instant.
 */
module Recurrence {
  import opened Wrappers
  import opened Cron
  import opened TimeText

  const MinutesPerDay: int := 24 * 60

  /** The exceptions `calculate_recurrence` can raise. */
  datatype CalcError =
    | InvalidCronExpression(expression: string)   // from parse_cron_expression
    | UnsupportedHours(expression: string)        // NotImplementedError, hour field
    | UnsupportedMinutes(expression: string)      // NotImplementedError, minute field
    | NoNextRun(expression: string)               // the cron library refuses the expression
    | UnknownTimezone(timezone: string)           // the timezone database does not know the name
    | InvalidLocalTime(time: string)              // the expected time does not parse

  /**
   * What the calculator consults outside itself. `nextRun(e, now)` is the next
   * firing instant of expression `e` after `now` (None where the cron library
   * raises); `utcOffset(zone, t)` is the offset of `zone` at instant `t` (None
   * for a name the timezone database does not know).
   */
  datatype World = World(nextRun: (string, int) -> Option<int>, utcOffset: (string, int) -> Option<int>)

  /** The minute of the day that a clock in a zone with `offset` shows at `instant`. */
  function LocalMinuteOfDay(instant: int, offset: int): nat {
    (instant + offset) % MinutesPerDay
  }

  /** The first instant of the local calendar day that holds `instant`, on the local clock. */
  function LocalMidnight(instant: int, offset: int): int {
    var local := instant + offset;
    local - local % MinutesPerDay
  }

  /**
   * `local_next_run.replace(hour=.., minute=..)` taken back to UTC. The
   * replaced value keeps the fixed offset of the next run, so the same
   * `offset` converts it back.
   */
  function CorrectedInstant(next: int, offset: int, want: nat): int {
    LocalMidnight(next, offset) + want - offset
  }

  /** `.minute` and `.hour` of a UTC instant. */
  function UtcMinute(instant: int): nat { instant % 60 }
  function UtcHour(instant: int): nat { (instant % MinutesPerDay) / 60 }

  /** `'{} {} {}'.format(minute, hour, rest)`. */
  function Rebuild(minute: nat, hour: nat, rest: string): string {
    Show(minute) + " " + Show(hour) + " " + rest
  }

  /** `(start_time - utc_now).days > 1`: `timedelta.days` is the floor of the difference in days. */
  predicate StartsTooLate(startTime: Option<int>, now: int) {
    startTime.Some? && (startTime.value - now) / MinutesPerDay > 1
  }

  /**
   * `calculate_recurrence(current, expected, timezone, start_time)` with the
   * clock reading `now`.
   */
  function Calculate(current: string, expected: string, timezone: string, startTime: Option<int>,
                     now: int, world: World): Result<string, CalcError>
  {
    match ParseCronExpression(current)
    case None => Err(InvalidCronExpression(current))
    case Some(p) =>
      if !IsDigits(p.hour) then Err(UnsupportedHours(current))
      else if !IsDigits(p.minute) then Err(UnsupportedMinutes(current))
      else if p.hour == "*" then Ok(current)
      else if StartsTooLate(startTime, now) then Ok(current)
      else
        match world.nextRun(current, now)
        case None => Err(NoNextRun(current))
        case Some(next) =>
          match world.utcOffset(timezone, next)
          case None => Err(UnknownTimezone(timezone))
          case Some(offset) =>
            if FormatHHMM(LocalMinuteOfDay(next, offset)) == expected then Ok(current)
            else
              match ParseHHMM(expected)
              case None => Err(InvalidLocalTime(expected))
              case Some(want) =>
                var utc := CorrectedInstant(next, offset, want);
                Ok(Rebuild(UtcMinute(utc), UtcHour(utc), p.rest))
  }

  /** The injected time source: the production one reads the system clock, a test one a fixed instant. */
  class TimeSource {
    var now: int

    constructor (now: int)
      ensures this.now == now
    {
      this.now := now;
    }

    method GetCurrentUtcDatetime() returns (t: int)
      ensures t == now
    {
      t := now;
    }
  }

  /** The shape of `calculate_recurrence` as the processors call it: (recurrence, local time, timezone). */
  type Decider = (string, string, string) -> Result<string, CalcError>

  class RecurrenceCalculator {
    const timeSource: TimeSource
    const world: World
    /** The decisions this calculator makes without a start time, while its clock shows what it showed at construction. */
    ghost const decide: Decider

    /** The clock still shows the instant `decide` was taken at. */
    ghost predicate Valid()
      reads this, timeSource
    {
      forall c: string, t: string, z: string {:trigger Calculate(c, t, z, None, timeSource.now, world)} ::
        decide(c, t, z) == Calculate(c, t, z, None, timeSource.now, world)
    }

    /** Without a time source the calculator makes its own, which reads the system clock (`systemNow`). */
    constructor (timeSource: TimeSource?, systemNow: int, world: World)
      ensures timeSource != null ==> this.timeSource == timeSource
      ensures timeSource == null ==> fresh(this.timeSource) && this.timeSource.now == systemNow
      ensures this.world == world
      ensures Valid()
    {
      var source := timeSource;
      if source == null {
        source := new TimeSource(systemNow);
      }
      var now := source.now;
      this.timeSource := source;
      this.world := world;
      this.decide := (c: string, t: string, z: string) => Calculate(c, t, z, None, now, world);
    }

    method CalculateRecurrence(current: string, expected: string, timezone: string, startTime: Option<int>)
      returns (r: Result<string, CalcError>)
      ensures r == Calculate(current, expected, timezone, startTime, timeSource.now, world)
      ensures Valid() && startTime.None? ==> r == decide(current, expected, timezone)
    {
      var now := timeSource.GetCurrentUtcDatetime();
      r := Calculate(current, expected, timezone, startTime, now, world);
    }
  }

  // ----- Lemmas -----

  lemma ModShift(q: int, x: int)
    ensures (q * MinutesPerDay + x) % MinutesPerDay == x % MinutesPerDay
  {
    var k, y := x / MinutesPerDay, x % MinutesPerDay;
    assert x == k * MinutesPerDay + y;
    assert q * MinutesPerDay + x == (q + k) * MinutesPerDay + y;
  }

  /**
   * The corrected instant shows the wanted time on the local clock, on the same
   * local calendar day as the next run.
   */
  lemma CorrectedLandsOnWantedTime(next: int, offset: int, want: nat)
    requires want < MinutesPerDay
    ensures LocalMinuteOfDay(CorrectedInstant(next, offset, want), offset) == want
    ensures LocalMidnight(CorrectedInstant(next, offset, want), offset) == LocalMidnight(next, offset)
  {
    var local := next + offset;
    var q := local / MinutesPerDay;
    assert LocalMidnight(next, offset) == q * MinutesPerDay;
    assert CorrectedInstant(next, offset, want) + offset == q * MinutesPerDay + want;
    ModShift(q, want);
  }

  /** The UTC minute and hour of an instant are in range and give back its time of day. */
  lemma UtcFieldsOfInstant(instant: int)
    ensures UtcMinute(instant) < 60 && UtcHour(instant) < 24
    ensures UtcHour(instant) * 60 + UtcMinute(instant) == instant % MinutesPerDay
  {
    var q := instant / MinutesPerDay;
    var t := instant % MinutesPerDay;
    assert instant == q * MinutesPerDay + t;
    assert instant == (q * 24) * 60 + t;
    assert instant % 60 == t % 60;
  }

  /** A rebuilt expression parses back to the new minute and hour and the untouched tail. */
  lemma RebuildParses(current: string, minute: nat, hour: nat)
    requires ParseCronExpression(current).Some?
    ensures ParseCronExpression(Rebuild(minute, hour, ParseCronExpression(current).value.rest))
         == Some(CronFields(Show(minute), Show(hour), ParseCronExpression(current).value.rest))
  {
    ParseSound(current);
    var e := DropFinalNewline(current);
    var ts, gs := Split(e).value.0, Split(e).value.1;
    SplitSound(e);
    assert WellFormed(ts[2..], gs[2..]);
    DigitsAreToken(Show(minute));
    DigitsAreToken(Show(hour));
    ParseTimeFieldsOver(Show(minute), Show(hour), ts[2..], gs[2..]);
  }

  lemma DigitsAreToken(s: string)
    requires IsDigits(s)
    ensures IsToken(s)
  {
  }

  /** The minute and hour fields of a cron expression fix the UTC time of day at which it fires. */
  ghost predicate FiresAt(expression: string, instant: int) {
    ParseCronExpression(expression).Some? && FieldsFireAt(ParseCronExpression(expression).value, instant)
  }

  ghost predicate FieldsFireAt(fields: CronFields, instant: int) {
    && IsDigits(fields.minute) && IsDigits(fields.hour)
    && instant % MinutesPerDay == Value(fields.hour) * 60 + Value(fields.minute)
  }

  /**
   * The rewrite branch: a changed result comes only from a parsed expression
   * with decimal fields whose next run's local time differs from a parsable
   * expected time, and is the corrected instant's UTC minute and hour over the
   * original tail.
   */
  lemma RewriteBranch(current: string, expected: string, timezone: string, startTime: Option<int>,
                      now: int, world: World, s: string)
    requires Calculate(current, expected, timezone, startTime, now, world) == Ok(s)
    requires s != current
    ensures ParseCronExpression(current).Some?
    ensures IsDigits(ParseCronExpression(current).value.minute) && IsDigits(ParseCronExpression(current).value.hour)
    ensures !StartsTooLate(startTime, now)
    ensures world.nextRun(current, now).Some?
    ensures world.utcOffset(timezone, world.nextRun(current, now).value).Some?
    ensures ParseHHMM(expected).Some?
    ensures var next := world.nextRun(current, now).value;
      var offset := world.utcOffset(timezone, next).value;
      && FormatHHMM(LocalMinuteOfDay(next, offset)) != expected
      && var utc := CorrectedInstant(next, offset, ParseHHMM(expected).value);
      s == Rebuild(UtcMinute(utc), UtcHour(utc), ParseCronExpression(current).value.rest)
  {
  }

  /** The UTC minute and hour of the corrected instant show the wanted time on the local clock. */
  lemma CorrectedFieldsShowWanted(next: int, offset: int, want: nat)
    requires want < MinutesPerDay
    ensures var utc := CorrectedInstant(next, offset, want);
      LocalMinuteOfDay(UtcHour(utc) * 60 + UtcMinute(utc), offset) == want
  {
    var utc := CorrectedInstant(next, offset, want);
    UtcFieldsOfInstant(utc);
    CorrectedLandsOnWantedTime(next, offset, want);
    var t := utc % MinutesPerDay;
    ModShift(utc / MinutesPerDay, t + offset);
    assert utc + offset == (utc / MinutesPerDay) * MinutesPerDay + (t + offset);
  }

  /**
   * Decimal minute and hour fields whose UTC time of day reads `want` on a
   * clock `offset` minutes east of UTC.
   */
  ghost predicate ShowsLocalTime(fields: CronFields, offset: int, want: nat) {
    && IsDigits(fields.minute) && IsDigits(fields.hour)
    && LocalMinuteOfDay(Value(fields.hour) * 60 + Value(fields.minute), offset) == want
  }

  lemma ShownFieldsShowLocalTime(fields: CronFields, minute: nat, hour: nat, offset: int, want: nat)
    requires fields.minute == Show(minute) && fields.hour == Show(hour)
    requires LocalMinuteOfDay(hour * 60 + minute, offset) == want
    ensures ShowsLocalTime(fields, offset, want)
    ensures Value(fields.minute) == minute && Value(fields.hour) == hour
  {
  }

  /** What the rewrite branch builds, for any parsed expression, offset and wanted time. */
  lemma RebuildShape(current: string, next: int, offset: int, want: nat)
    requires ParseCronExpression(current).Some? && want < MinutesPerDay
    ensures var utc := CorrectedInstant(next, offset, want);
      var s := Rebuild(UtcMinute(utc), UtcHour(utc), ParseCronExpression(current).value.rest);
      && ParseCronExpression(s).Some?
      && var q := ParseCronExpression(s).value;
      && q.rest == ParseCronExpression(current).value.rest
      && q.minute == Show(UtcMinute(utc)) && UtcMinute(utc) < 60
      && q.hour == Show(UtcHour(utc)) && UtcHour(utc) < 24
      && ShowsLocalTime(q, offset, want)
  {
    var utc := CorrectedInstant(next, offset, want);
    var m, h := UtcMinute(utc), UtcHour(utc);
    assert LocalMinuteOfDay(h * 60 + m, offset) == want by {
      CorrectedFieldsShowWanted(next, offset, want);
    }
    assert m < 60 && h < 24 by {
      UtcFieldsOfInstant(utc);
    }
    RebuildParses(current, m, h);
    var q := ParseCronExpression(Rebuild(m, h, ParseCronExpression(current).value.rest)).value;
    ShownFieldsShowLocalTime(q, m, h, offset, want);
  }

  /**
   * Every expression the calculator rewrites keeps every field but minute and
   * hour verbatim, gets a decimal minute below 60 and hour below 24 (written as
   * `str` writes them), and, under the offset of the next run, fires at the
   * expected local time.
   */
  lemma CorrectionShape(current: string, expected: string, timezone: string, startTime: Option<int>,
                        now: int, world: World, s: string)
    requires Calculate(current, expected, timezone, startTime, now, world) == Ok(s)
    requires s != current
    ensures ParseCronExpression(current).Some? && ParseCronExpression(s).Some?
    ensures var p, q := ParseCronExpression(current).value, ParseCronExpression(s).value;
      && q.rest == p.rest
      && exists minute: nat, hour: nat :: minute < 60 && hour < 24 && q.minute == Show(minute) && q.hour == Show(hour)
    ensures world.nextRun(current, now).Some?
      && world.utcOffset(timezone, world.nextRun(current, now).value).Some?
      && ParseHHMM(expected).Some?
    ensures ShowsLocalTime(ParseCronExpression(s).value,
                           world.utcOffset(timezone, world.nextRun(current, now).value).value,
                           ParseHHMM(expected).value)
  {
    var p := ParseCronExpression(current).value;
    var next := world.nextRun(current, now).value;
    var offset := world.utcOffset(timezone, next).value;
    var want := ParseHHMM(expected).value;
    var utc := CorrectedInstant(next, offset, want);
    assert s == Rebuild(UtcMinute(utc), UtcHour(utc), p.rest) by {
      RewriteBranch(current, expected, timezone, startTime, now, world, s);
    }
    FormatParseHHMM(expected);
    RebuildShape(current, next, offset, want);
  }

  lemma LocalTimeOfTimeOfDay(instant: int, offset: int)
    ensures LocalMinuteOfDay(instant, offset) == LocalMinuteOfDay(instant % MinutesPerDay, offset)
  {
    var q := instant / MinutesPerDay;
    assert instant + offset == q * MinutesPerDay + (instant % MinutesPerDay + offset);
    ModShift(q, instant % MinutesPerDay + offset);
  }

  /** An expression that fires at an instant, and whose fields show `want` locally, fires at local `want`. */
  lemma FiringShowsLocalTime(fields: CronFields, instant: int, offset: int, want: nat)
    requires FieldsFireAt(fields, instant) && ShowsLocalTime(fields, offset, want)
    ensures LocalMinuteOfDay(instant, offset) == want
  {
    LocalTimeOfTimeOfDay(instant, offset);
  }

  /**
   * An expression that already fires at the expected local time is returned
   * unchanged: its next run, read on the local clock, is the expected time.
   */
  lemma CorrectExpressionKept(current: string, expected: string, timezone: string, startTime: Option<int>,
                              now: int, world: World)
    requires ParseCronExpression(current).Some?
    requires world.nextRun(current, now).Some?
    requires FieldsFireAt(ParseCronExpression(current).value, world.nextRun(current, now).value)
    requires world.utcOffset(timezone, world.nextRun(current, now).value).Some?
    requires ParseHHMM(expected).Some?
    requires ShowsLocalTime(ParseCronExpression(current).value,
                            world.utcOffset(timezone, world.nextRun(current, now).value).value,
                            ParseHHMM(expected).value)
    ensures Calculate(current, expected, timezone, startTime, now, world) == Ok(current)
  {
    var p := ParseCronExpression(current).value;
    var next := world.nextRun(current, now).value;
    var offset := world.utcOffset(timezone, next).value;
    assert FormatHHMM(LocalMinuteOfDay(next, offset)) == expected by {
      FormatParseHHMM(expected);
      FiringShowsLocalTime(p, next, offset, ParseHHMM(expected).value);
    }
    assert p.hour != "*" by {
      assert IsDigits(p.hour);
    }
  }

  /**
   * Idempotence: run again on its own output, with the clock and the start
   * time unchanged, the calculator leaves the output alone, provided the
   * output's next run falls at the time of day its fields say and is under the
   * same UTC offset as the first next run.
   */
  lemma CalculateIdempotent(current: string, expected: string, timezone: string, startTime: Option<int>,
                            now: int, world: World, s: string)
    requires Calculate(current, expected, timezone, startTime, now, world) == Ok(s)
    requires world.nextRun(s, now).Some? && FiresAt(s, world.nextRun(s, now).value)
    requires world.nextRun(current, now).Some?
    requires world.utcOffset(timezone, world.nextRun(s, now).value)
          == world.utcOffset(timezone, world.nextRun(current, now).value)
    ensures Calculate(s, expected, timezone, startTime, now, world) == Ok(s)
  {
    if s != current {
      CorrectionShape(current, expected, timezone, startTime, now, world, s);
      CorrectExpressionKept(s, expected, timezone, startTime, now, world);
    }
  }

  /**
   * The hour field is refused exactly when it holds a character other than a
   * decimal digit: a range, a list, a step or the wildcard `*`. So the branch
   * that keeps an expression not selective on the hour is never taken.
   */
  lemma UnsupportedHoursExactly(current: string, expected: string, timezone: string, startTime: Option<int>,
                                now: int, world: World)
    ensures Calculate(current, expected, timezone, startTime, now, world) == Err(UnsupportedHours(current))
        <==> ParseCronExpression(current).Some?
             && exists i :: 0 <= i < |ParseCronExpression(current).value.hour|
                            && !IsDigit(ParseCronExpression(current).value.hour[i])
  {
    if ParseCronExpression(current).Some? {
      var p := ParseCronExpression(current).value;
      ParsedFieldsAreTokens(current);
      assert !IsDigits(p.hour) <==> exists i :: 0 <= i < |p.hour| && !IsDigit(p.hour[i]);
      if IsDigits(p.hour) {
        NoLaterUnsupported(current, expected, timezone, startTime, now, world);
      }
    }
  }

  /** Past the field checks, no error names the expression's fields. */
  lemma NoLaterUnsupported(current: string, expected: string, timezone: string, startTime: Option<int>,
                           now: int, world: World)
    requires ParseCronExpression(current).Some?
    requires IsDigits(ParseCronExpression(current).value.hour)
    ensures !Calculate(current, expected, timezone, startTime, now, world).Err?
         || !Calculate(current, expected, timezone, startTime, now, world).error.UnsupportedHours?
  {
  }

  /** With a decimal hour, the minute field is refused exactly when it holds a non-digit. */
  lemma UnsupportedMinutesExactly(current: string, expected: string, timezone: string, startTime: Option<int>,
                                  now: int, world: World)
    ensures Calculate(current, expected, timezone, startTime, now, world) == Err(UnsupportedMinutes(current))
        <==> ParseCronExpression(current).Some?
             && IsDigits(ParseCronExpression(current).value.hour)
             && exists i :: 0 <= i < |ParseCronExpression(current).value.minute|
                            && !IsDigit(ParseCronExpression(current).value.minute[i])
  {
    if ParseCronExpression(current).Some? {
      ParsedFieldsAreTokens(current);
    }
  }

  /** `timedelta.days > 1` holds exactly when the start is two whole days or more away. */
  lemma StartsTooLateExactly(start: int, now: int)
    ensures StartsTooLate(Some(start), now) <==> start - now >= 2 * MinutesPerDay
  {
    var d := start - now;
    assert d == (d / MinutesPerDay) * MinutesPerDay + d % MinutesPerDay;
  }

  /** A start two days away or more leaves any supported expression as it is. */
  lemma DistantStartKept(current: string, expected: string, timezone: string, start: int,
                         now: int, world: World)
    requires ParseCronExpression(current).Some?
    requires IsDigits(ParseCronExpression(current).value.minute) && IsDigits(ParseCronExpression(current).value.hour)
    requires start - now >= 2 * MinutesPerDay
    ensures Calculate(current, expected, timezone, Some(start), now, world) == Ok(current)
  {
    StartsTooLateExactly(start, now);
  }

  // The unit tests of the calculator (tests/unit/test_recurrence.py:38-87), on
  // 2020-01-01T00:00Z in Europe/Madrid, one hour east of UTC in January. Each
  // case is stated for any expression that parses to the test's fields (the
  // test's own string does: Cron.ParseDaily), which keeps the verifier from
  // evaluating the splitter on a literal. The
  // cron library's next firing is an assumption about the world.

  const Jan1st2020: int := 26297280
  const MadridJanuaryOffset: int := 60

  /** The clock arithmetic of the half-past-midnight case: 00:30Z is 01:30 in Madrid, 11:00 is 10:00Z. */
  lemma HalfPastMidnightClock()
    ensures LocalMinuteOfDay(Jan1st2020 + 30, MadridJanuaryOffset) == 90
    ensures ParseHHMM("11:00") == Some(660)
    ensures FormatHHMM(90) != "11:00"
    ensures var utc := CorrectedInstant(Jan1st2020 + 30, MadridJanuaryOffset, 660);
      Rebuild(UtcMinute(utc), UtcHour(utc), "* * *") == "0 10 * * *"
  {
    var utc := CorrectedInstant(Jan1st2020 + 30, MadridJanuaryOffset, 660);
    assert utc == Jan1st2020 + 600;
    assert UtcMinute(utc) == 0 && UtcHour(utc) == 10;
    assert Show(0) == "0" && Show(10) == "10";
    ParseFormatHHMM(90);
  }

  /** The clock arithmetic of the quarter-past-eight case: 08:15Z is 09:15 in Madrid, 23:30 is 22:30Z. */
  lemma QuarterPastEightClock()
    ensures LocalMinuteOfDay(Jan1st2020 + 495, MadridJanuaryOffset) == 555
    ensures ParseHHMM("23:30") == Some(1410)
    ensures FormatHHMM(555) != "23:30"
    ensures var utc := CorrectedInstant(Jan1st2020 + 495, MadridJanuaryOffset, 1410);
      Rebuild(UtcMinute(utc), UtcHour(utc), "* * *") == "30 22 * * *"
  {
    var utc := CorrectedInstant(Jan1st2020 + 495, MadridJanuaryOffset, 1410);
    assert utc == Jan1st2020 + 1350;
    assert UtcMinute(utc) == 30 && UtcHour(utc) == 22;
    assert Show(30) == "30" && Show(22) == "22";
    ParseFormatHHMM(555);
  }

  lemma MadridCorrectsHalfPastMidnight(current: string, expected: string, timezone: string,
                                       startTime: Option<int>, world: World)
    requires ParseCronExpression(current) == Some(CronFields("30", "0", "* * *"))
    requires expected == "11:00" && timezone == "Europe/Madrid"
    requires startTime == None || startTime == Some(Jan1st2020 - 365 * MinutesPerDay)
    requires world.nextRun(current, Jan1st2020) == Some(Jan1st2020 + 30)
    requires world.utcOffset(timezone, Jan1st2020 + 30) == Some(MadridJanuaryOffset)
    ensures Calculate(current, expected, timezone, startTime, Jan1st2020, world) == Ok("0 10 * * *")
  {
    HalfPastMidnightClock();
    assert !StartsTooLate(startTime, Jan1st2020);
    assert IsDigits("30") && IsDigits("0");
    RewriteOf(current, expected, timezone, startTime, Jan1st2020, world);
  }

  lemma MadridCorrectsQuarterPastEight(current: string, expected: string, timezone: string, world: World)
    requires ParseCronExpression(current) == Some(CronFields("15", "8", "* * *"))
    requires expected == "23:30" && timezone == "Europe/Madrid"
    requires world.nextRun(current, Jan1st2020) == Some(Jan1st2020 + 495)
    requires world.utcOffset(timezone, Jan1st2020 + 495) == Some(MadridJanuaryOffset)
    ensures Calculate(current, expected, timezone, Some(Jan1st2020 - 365 * MinutesPerDay), Jan1st2020, world)
         == Ok("30 22 * * *")
  {
    QuarterPastEightClock();
    assert !StartsTooLate(Some(Jan1st2020 - 365 * MinutesPerDay), Jan1st2020);
    assert IsDigits("15") && IsDigits("8");
    RewriteOf(current, expected, timezone, Some(Jan1st2020 - 365 * MinutesPerDay), Jan1st2020, world);
  }

  lemma MadridKeepsTenOClock(current: string, expected: string, timezone: string, world: World)
    requires ParseCronExpression(current) == Some(CronFields("0", "10", "* * *"))
    requires expected == "11:00" && timezone == "Europe/Madrid"
    requires world.nextRun(current, Jan1st2020) == Some(Jan1st2020 + 600)
    requires world.utcOffset(timezone, Jan1st2020 + 600) == Some(MadridJanuaryOffset)
    ensures Calculate(current, expected, timezone, Some(Jan1st2020 - 365 * MinutesPerDay), Jan1st2020, world)
         == Ok(current)
  {
    assert LocalMinuteOfDay(Jan1st2020 + 600, MadridJanuaryOffset) == 660;
    assert ParseHHMM(expected) == Some(660);
    FormatParseHHMM(expected);
    assert IsDigits("0") && IsDigits("10");
    KeepOf(current, expected, timezone, Some(Jan1st2020 - 365 * MinutesPerDay), Jan1st2020, world);
  }

  lemma MadridKeepsHalfPastTen(current: string, expected: string, timezone: string, world: World)
    requires ParseCronExpression(current) == Some(CronFields("30", "22", "* * *"))
    requires expected == "23:30" && timezone == "Europe/Madrid"
    requires world.nextRun(current, Jan1st2020) == Some(Jan1st2020 + 1350)
    requires world.utcOffset(timezone, Jan1st2020 + 1350) == Some(MadridJanuaryOffset)
    ensures Calculate(current, expected, timezone, Some(Jan1st2020 - 365 * MinutesPerDay), Jan1st2020, world)
         == Ok(current)
  {
    assert LocalMinuteOfDay(Jan1st2020 + 1350, MadridJanuaryOffset) == 1410;
    assert ParseHHMM(expected) == Some(1410);
    FormatParseHHMM(expected);
    assert IsDigits("30") && IsDigits("22");
    KeepOf(current, expected, timezone, Some(Jan1st2020 - 365 * MinutesPerDay), Jan1st2020, world);
  }

  /** The rewrite branch of `Calculate`, once every test before it is known to pass. */
  lemma RewriteOf(current: string, expected: string, timezone: string, startTime: Option<int>,
                  now: int, world: World)
    requires ParseCronExpression(current).Some?
    requires IsDigits(ParseCronExpression(current).value.minute) && IsDigits(ParseCronExpression(current).value.hour)
    requires !StartsTooLate(startTime, now)
    requires world.nextRun(current, now).Some?
    requires world.utcOffset(timezone, world.nextRun(current, now).value).Some?
    requires ParseHHMM(expected).Some?
    requires var next := world.nextRun(current, now).value;
      FormatHHMM(LocalMinuteOfDay(next, world.utcOffset(timezone, next).value)) != expected
    ensures var next := world.nextRun(current, now).value;
      var utc := CorrectedInstant(next, world.utcOffset(timezone, next).value, ParseHHMM(expected).value);
      Calculate(current, expected, timezone, startTime, now, world)
        == Ok(Rebuild(UtcMinute(utc), UtcHour(utc), ParseCronExpression(current).value.rest))
  {
    var p := ParseCronExpression(current).value;
    assert p.hour != "*" by {
      assert IsDigit(p.hour[0]);
    }
  }

  /** The branch of `Calculate` that finds the local times already equal. */
  lemma KeepOf(current: string, expected: string, timezone: string, startTime: Option<int>,
               now: int, world: World)
    requires ParseCronExpression(current).Some?
    requires IsDigits(ParseCronExpression(current).value.minute) && IsDigits(ParseCronExpression(current).value.hour)
    requires world.nextRun(current, now).Some?
    requires world.utcOffset(timezone, world.nextRun(current, now).value).Some?
    requires var next := world.nextRun(current, now).value;
      FormatHHMM(LocalMinuteOfDay(next, world.utcOffset(timezone, next).value)) == expected
    ensures Calculate(current, expected, timezone, startTime, now, world) == Ok(current)
  {
  }

  /** A start on 2020-01-03, two days away, leaves `0 15 * * *` alone whatever the world says. */
  lemma MadridKeepsDistantStart(current: string, world: World)
    requires ParseCronExpression(current) == Some(CronFields("0", "15", "* * *"))
    ensures Calculate(current, "11:00", "Europe/Madrid", Some(Jan1st2020 + 2 * MinutesPerDay), Jan1st2020, world)
         == Ok(current)
  {
    assert IsDigits("0") && IsDigits("15");
    DistantStartKept(current, "11:00", "Europe/Madrid", Jan1st2020 + 2 * MinutesPerDay, Jan1st2020, world);
  }

  /** Ranges and lists in the hour field are refused with the multiple-hours error. */
  lemma HourRangesAndListsRefused(current: string, expected: string, timezone: string, startTime: Option<int>,
                                  now: int, world: World)
    requires current in ["0 6-9 * * *", "0 6,7 * * *"]
    ensures Calculate(current, expected, timezone, startTime, now, world) == Err(UnsupportedHours(current))
  {
    if current == "0 6-9 * * *" {
      assert IsToken("0") && IsToken("6-9") && !IsDigit("6-9"[1]);
      DailyRefused("0", "6-9", current, expected, timezone, startTime, now, world);
    } else {
      assert IsToken("0") && IsToken("6,7") && !IsDigit("6,7"[1]);
      DailyRefused("0", "6,7", current, expected, timezone, startTime, now, world);
    }
  }

  /** Ranges and lists in the minute field, under a decimal hour, are refused with the multiple-minutes error. */
  lemma MinuteRangesAndListsRefused(current: string, expected: string, timezone: string, startTime: Option<int>,
                                    now: int, world: World)
    requires current in ["0-3 0 * * *", "0,1 0 * * *"]
    ensures Calculate(current, expected, timezone, startTime, now, world) == Err(UnsupportedMinutes(current))
  {
    if current == "0-3 0 * * *" {
      assert IsToken("0-3") && IsToken("0") && !IsDigit("0-3"[1]) && IsDigits("0");
      DailyRefused("0-3", "0", current, expected, timezone, startTime, now, world);
    } else {
      assert IsToken("0,1") && IsToken("0") && !IsDigit("0,1"[1]) && IsDigits("0");
      DailyRefused("0,1", "0", current, expected, timezone, startTime, now, world);
    }
  }

  /**
   * A daily expression with a non-decimal field is refused, the hour checked
   * before the minute.
   */
  lemma DailyRefused(minute: string, hour: string, current: string, expected: string, timezone: string,
                     startTime: Option<int>, now: int, world: World)
    requires IsToken(minute) && IsToken(hour) && current == minute + " " + hour + " * * *"
    requires !IsDigits(hour) || !IsDigits(minute)
    ensures Calculate(current, expected, timezone, startTime, now, world)
         == if !IsDigits(hour) then Err(UnsupportedHours(current)) else Err(UnsupportedMinutes(current))
  {
    ParseDaily(minute, hour, current);
  }
}
