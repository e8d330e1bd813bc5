/**
 The calendar a decision is made on: the weekend, the trading sessions and the two
 blackouts on new positions. Times are whole minutes since the Unix epoch, UTC.
 */
module Sessions {
  import opened Wrappers

  const MINUTES_A_DAY: int := 1440
  const MINUTES_A_WEEK: int := 10080

  /** The epoch fell on a Thursday; Monday is day 0. */
  function Weekday(minute: int): int { (minute / MINUTES_A_DAY + 3) % 7 }

  function Hour(minute: int): int { minute / 60 % 24 }

  // ---------------------------------------------------------------- the weekend

  /** Foreign exchange is shut from Friday 21:00 to Sunday 22:00 UTC. */
  predicate IsForexWeekend(minute: int) {
    || (Weekday(minute) == 4 && Hour(minute) >= 21)
    || Weekday(minute) == 5
    || (Weekday(minute) == 6 && Hour(minute) < 22)
  }

  /** 1970-01-02 was a Friday. */
  const FIRST_CLOSE: int := 1440 + 21 * 60

  /** Every week the market is shut for one stretch of exactly 49 hours. */
  lemma TheWeekendIsOneStretch(minute: int)
    ensures IsForexWeekend(minute) <==> (minute - FIRST_CLOSE) % MINUTES_A_WEEK < 49 * 60
  {
    var week := (minute - FIRST_CLOSE) / MINUTES_A_WEEK;
    var into := (minute - FIRST_CLOSE) % MINUTES_A_WEEK;
    assert minute == FIRST_CLOSE + MINUTES_A_WEEK * week + into;
    WeeksRepeat(FIRST_CLOSE + into, week);
  }

  lemma WeeksRepeat(minute: int, weeks: int)
    ensures Weekday(minute + MINUTES_A_WEEK * weeks) == Weekday(minute)
    ensures Hour(minute + MINUTES_A_WEEK * weeks) == Hour(minute)
    ensures (minute + MINUTES_A_WEEK * weeks) % MINUTES_A_DAY == minute % MINUTES_A_DAY
  {
    var later := minute + MINUTES_A_WEEK * weeks;
    assert later / 1440 == minute / 1440 + 7 * weeks;
    assert later / 60 == minute / 60 + 168 * weeks;
    RemainderIgnoresMultiples(minute / 1440 + 3, 7, weeks);
    RemainderIgnoresMultiples(minute / 60, 24, 7 * weeks);
  }

  lemma RemainderIgnoresMultiples(a: int, m: nat, k: int)
    requires m == 7 || m == 24
    ensures (a + m * k) % m == a % m
  {
  }

  // ---------------------------------------------------------------- sessions

  datatype Session = Weekend | Overlap | London | NewYork | Asian | OffHours

  /** Hours of the day, the first included and the last not. */
  datatype Hours = Hours(from: int, until: int) {
    predicate Hold(hour: int) { from <= hour < until }
  }

  datatype SessionConfig = SessionConfig(
    asian: Hours, london: Hours, newYork: Hours, tradeable: set<Session>, blockLowLiquidity: bool,
    rolloverHour: Option<nat>, rolloverBefore: int, rolloverAfter: int, weekendEntryHours: int)
  {
    /** An hour of the day, if the rollover is known. */
    ghost predicate Valid() { rolloverHour.Some? ==> rolloverHour.value < 24 }
  }

  function SessionAt(minute: int, config: SessionConfig): Session {
    var hour := Hour(minute);
    if IsForexWeekend(minute) then Weekend
    else if config.london.Hold(hour) && config.newYork.Hold(hour) then Overlap
    else if config.london.Hold(hour) then London
    else if config.newYork.Hold(hour) then NewYork
    else if config.asian.Hold(hour) then Asian
    else OffHours
  }

  predicate Tradeable(minute: int, config: SessionConfig) {
    !IsForexWeekend(minute) && (SessionAt(minute, config) in config.tradeable || !config.blockLowLiquidity)
  }

  /** Outside the weekend the hour names the session: both markets, else one of them, else Asia, else none. */
  lemma SessionsMean(minute: int, config: SessionConfig)
    ensures
      var hour, session := minute / 60 % 24, SessionAt(minute, config);
      var london, newYork := config.london.from <= hour < config.london.until, config.newYork.from <= hour < config.newYork.until;
      && (session == Weekend <==> IsForexWeekend(minute))
      && (session == Overlap <==> !IsForexWeekend(minute) && london && newYork)
      && (session == London <==> !IsForexWeekend(minute) && london && !newYork)
      && (session == NewYork <==> !IsForexWeekend(minute) && newYork && !london)
      && (session == Asian <==>
            !IsForexWeekend(minute) && !london && !newYork && config.asian.from <= hour < config.asian.until)
      && (Tradeable(minute, config) <==> session != Weekend && (session in config.tradeable || !config.blockLowLiquidity))
  {
    hide IsForexWeekend;
  }

  // ---------------------------------------------------------------- blackouts

  function Magnitude(x: int): nat { if x < 0 then -x else x }

  /** The signed distance to the nearest of the day's, yesterday's and tomorrow's occurrence of an hour. */
  function FromNearest(minute: int, hour: nat): (r: int)
    ensures hour < 24 ==> -720 < r <= 720 && (minute - 60 * hour - r) % MINUTES_A_DAY == 0
  {
    var today := minute % MINUTES_A_DAY - 60 * hour;
    var first := if Magnitude(today) < Magnitude(today + MINUTES_A_DAY) then today else today + MINUTES_A_DAY;
    if Magnitude(today - MINUTES_A_DAY) < Magnitude(first) then today - MINUTES_A_DAY else first
  }

  predicate RolloverBlackout(minute: int, config: SessionConfig) {
    && config.rolloverHour.Some? && (config.rolloverBefore > 0 || config.rolloverAfter > 0)
    && -config.rolloverBefore <= FromNearest(minute, config.rolloverHour.value) <= config.rolloverAfter
  }

  /** Searches yesterday's, today's and tomorrow's rollover for the nearest. */
  method InRolloverBlackout(minute: int, config: SessionConfig) returns (blocked: bool)
    ensures blocked == RolloverBlackout(minute, config)
  {
    if config.rolloverHour.None? || (config.rolloverBefore <= 0 && config.rolloverAfter <= 0) {
      return false;
    }
    var today := minute % MINUTES_A_DAY - 60 * config.rolloverHour.value;
    var best: Option<int> := None;
    for shift := -1 to 2
      invariant shift == -1 ==> best == None
      invariant shift == 0 ==> best == Some(today + MINUTES_A_DAY)
      invariant shift == 1 ==>
                  best == Some(if Magnitude(today) < Magnitude(today + MINUTES_A_DAY) then today else today + MINUTES_A_DAY)
      invariant shift == 2 ==> best == Some(FromNearest(minute, config.rolloverHour.value))
    {
      var delta := today - shift * MINUTES_A_DAY;
      if best.None? || Magnitude(delta) < Magnitude(best.value) {
        best := Some(delta);
      }
    }
    return -config.rolloverBefore <= best.value <= config.rolloverAfter;
  }

  /** A blackout of less than a day is one window around the rollover, every day, across midnight too. */
  lemma RolloverIsOneWindowADay(minute: int, config: SessionConfig)
    requires config.Valid() && config.rolloverHour.Some?
    requires 0 <= config.rolloverBefore < 720 && 0 <= config.rolloverAfter <= 720
    requires config.rolloverBefore + config.rolloverAfter > 0
    ensures RolloverBlackout(minute, config)
            <==> (minute - 60 * config.rolloverHour.value + config.rolloverBefore) % MINUTES_A_DAY
                 <= config.rolloverBefore + config.rolloverAfter
  {
    var r := FromNearest(minute, config.rolloverHour.value);
    var into := (minute - 60 * config.rolloverHour.value + config.rolloverBefore) % MINUTES_A_DAY;
    hide FromNearest;
    assert (r + config.rolloverBefore - into) % MINUTES_A_DAY == 0;
  }

  /** Too close to the Friday close to open a position that would be held across the weekend. */
  predicate WeekendEntryBlackout(minute: int, config: SessionConfig) {
    && config.weekendEntryHours > 0 && Weekday(minute) == 4
    && 0 < 21 * 60 - minute % MINUTES_A_DAY <= config.weekendEntryHours * 60
  }

  /** The blackout runs into the weekend: together they are one stretch a week, longer by the blackout. */
  lemma TheBlackoutLeadsIntoTheWeekend(minute: int, config: SessionConfig)
    requires 0 < config.weekendEntryHours <= 21
    ensures IsForexWeekend(minute) || WeekendEntryBlackout(minute, config)
            <==> (minute - FIRST_CLOSE + 60 * config.weekendEntryHours) % MINUTES_A_WEEK
                 < 49 * 60 + 60 * config.weekendEntryHours
  {
    var lead := 60 * config.weekendEntryHours;
    var week := (minute - FIRST_CLOSE + lead) / MINUTES_A_WEEK;
    var into := (minute - FIRST_CLOSE + lead) % MINUTES_A_WEEK;
    var first := FIRST_CLOSE - lead + into;
    assert minute == first + MINUTES_A_WEEK * week;
    WeeksRepeat(first, week);
    assert IsForexWeekend(minute) == IsForexWeekend(first);
    assert WeekendEntryBlackout(minute, config) == WeekendEntryBlackout(first, config);
    TheFirstWeek(first, config, into);
  }

  lemma TheFirstWeek(minute: int, config: SessionConfig, into: int)
    requires 0 < config.weekendEntryHours <= 21 && 0 <= into < MINUTES_A_WEEK
    requires minute == FIRST_CLOSE - 60 * config.weekendEntryHours + into
    ensures IsForexWeekend(minute) || WeekendEntryBlackout(minute, config) <==> into < 49 * 60 + 60 * config.weekendEntryHours
  {
  }
}
