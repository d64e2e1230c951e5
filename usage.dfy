/**
 * The usage tracking service (`UsageTrackingService`): recording time is added to a trial
 * account's minutes or a subscriber's monthly hours, checked against the limit, turned into
 * a warning, and reset once a month on the subscription anniversary. Users are looked up by
 * id in a map standing for the users table.
 */
module UsageTracking {
  import opened Wrappers
  import opened Clock
  import opened Accounts
  import TrialLimits

  function NotFound(userId: string): string {
    "User " + userId + " not found"
  }

  /** `max(0, x)`. */
  function AtLeastZero(x: real): (y: real)
    ensures 0.0 <= y && x <= y
    ensures y == x || y == 0.0
  {
    if x < 0.0 then 0.0 else x
  }

  /** `user.monthly_hours_limit or 0`: a missing limit counts as zero. */
  function ConfiguredLimit(a: Account): real {
    match a.monthlyHoursLimit
    case None => 0.0
    case Some(limit) => limit
  }

  /** Hours used as a percentage of the limit; zero when no positive limit is set. */
  function UsagePercentage(used: real, limit: real): real {
    if limit > 0.0 then used / limit * 100.0 else 0.0
  }

  datatype TrackReport =
    | TrialTracked(minutesUsed: real, minutesRemaining: real, trackedMinutes: real)
    | PaidTracked(tier: Tier, hoursUsed: real, hoursLimit: real, hoursRemaining: real,
                  percentage: real, trackedHours: real, resetDate: Option<Instant>)

  /** The row a lookup of `userId` modifies, if any. */
  function Row(users: map<string, User>, userId: string): set<User> {
    if userId in users then {users[userId]} else {}
  }

  /** `track_recording_usage(user_id, seconds)`. */
  method TrackRecordingUsage(users: map<string, User>, userId: string, seconds: real)
    returns (r: Result<TrackReport, string>)
    modifies Row(users, userId)
    ensures userId !in users ==> r == Err(NotFound(userId))
    ensures userId in users ==> r.Ok?
    // A trial account gains the recording in minutes, and nothing else changes.
    ensures userId in users && users[userId].isTrialUser ==>
              var u := users[userId];
              u.Snapshot() == old(u.Snapshot()).(trialMinutesUsed := old(u.trialMinutesUsed) + seconds / 60.0)
              && r.value == TrialTracked(u.trialMinutesUsed, AtLeastZero(TrialLimits.TrialMinutesLimit - u.trialMinutesUsed),
                                         seconds / 60.0)
    // Any other account gains it in hours, and nothing else changes.
    ensures userId in users && !users[userId].isTrialUser ==>
              var u := users[userId];
              var limit := ConfiguredLimit(u.Snapshot());
              u.Snapshot() == old(u.Snapshot()).(monthlyHoursUsed := old(u.monthlyHoursUsed) + seconds / 3600.0)
              && r.value == PaidTracked(u.tier, u.monthlyHoursUsed, limit, AtLeastZero(limit - u.monthlyHoursUsed),
                                        UsagePercentage(u.monthlyHoursUsed, limit), seconds / 3600.0, u.usageResetAt)
    ensures userId in users && old(users[userId].Valid()) && 0.0 <= seconds ==> users[userId].Valid()
  {
    if userId !in users {
      return Err(NotFound(userId));
    }
    var user := users[userId];
    if user.isTrialUser {
      var minutes := seconds / 60.0;
      user.trialMinutesUsed := user.trialMinutesUsed + minutes;
      return Ok(TrialTracked(user.trialMinutesUsed,
                             AtLeastZero(TrialLimits.TrialMinutesLimit - user.trialMinutesUsed), minutes));
    }
    var hours := seconds / 3600.0;
    user.monthlyHoursUsed := user.monthlyHoursUsed + hours;
    var limit := ConfiguredLimit(user.Snapshot());
    return Ok(PaidTracked(user.tier, user.monthlyHoursUsed, limit, AtLeastZero(limit - user.monthlyHoursUsed),
                          UsagePercentage(user.monthlyHoursUsed, limit), hours, user.usageResetAt));
  }

  datatype LimitCheck =
    | TrialCheck(limitExceeded: bool, minutesUsed: real, minutesRemaining: real, percentage: real)
    | PaidCheck(limitExceeded: bool, tier: Tier, hoursUsed: real, hoursLimit: real,
                hoursRemaining: real, percentage: real, resetDate: Option<Instant>,
                warning80: bool, warning100: bool)

  /** The result of `check_usage_limit` for a found user. */
  function UsageCheck(a: Account): (c: LimitCheck)
    ensures a.isTrialUser <==> c.TrialCheck?
    ensures c.TrialCheck? ==>
              c.minutesUsed == a.trialMinutesUsed
              && (c.limitExceeded <==> a.trialMinutesUsed >= TrialLimits.TrialMinutesLimit)
              && c.minutesRemaining == AtLeastZero(TrialLimits.TrialMinutesLimit - a.trialMinutesUsed)
              && c.percentage == a.trialMinutesUsed / TrialLimits.TrialMinutesLimit * 100.0
    // A missing or zero limit never counts as exceeded.
    ensures c.PaidCheck? ==>
              var limit := ConfiguredLimit(a);
              c.hoursUsed == a.monthlyHoursUsed && c.hoursLimit == limit && c.tier == a.tier
              && (c.limitExceeded <==> limit > 0.0 && a.monthlyHoursUsed >= limit)
              && c.hoursRemaining == AtLeastZero(limit - a.monthlyHoursUsed)
              && c.percentage == UsagePercentage(a.monthlyHoursUsed, limit)
              && (limit <= 0.0 ==> c.percentage == 0.0 && !c.warning80 && !c.warning100)
              && c.resetDate == a.usageResetAt
    // The two warnings split the percentage range at 80 and 100 and never hold together.
    ensures c.PaidCheck? ==>
              (c.warning80 <==> 80.0 <= c.percentage < 100.0)
              && (c.warning100 <==> c.percentage >= 100.0)
              && !(c.warning80 && c.warning100)
  {
    if a.isTrialUser then
      var used := a.trialMinutesUsed;
      TrialCheck(used >= TrialLimits.TrialMinutesLimit, used,
                 AtLeastZero(TrialLimits.TrialMinutesLimit - used), used / TrialLimits.TrialMinutesLimit * 100.0)
    else
      var limit := ConfiguredLimit(a);
      var used := a.monthlyHoursUsed;
      var percentage := UsagePercentage(used, limit);
      PaidCheck(if limit > 0.0 then used >= limit else false, a.tier, used, limit,
                AtLeastZero(limit - used), percentage, a.usageResetAt,
                percentage >= 80.0 && percentage < 100.0, percentage >= 100.0)
  }

  /** `check_usage_limit(user_id)`. */
  function CheckUsageLimit(users: map<string, User>, userId: string): (r: Result<LimitCheck, string>)
    reads users.Values
    ensures r.Err? <==> userId !in users
    ensures r.Err? ==> r.error == NotFound(userId)
    ensures r.Ok? ==> r.value == UsageCheck(users[userId].Snapshot())
  {
    if userId in users then Ok(UsageCheck(users[userId].Snapshot())) else Err(NotFound(userId))
  }

  /** The full-quota warning of a subscriber is raised exactly when the limit is exceeded. */
  lemma FullWarningIffExceeded(a: Account)
    requires !a.isTrialUser && 0.0 <= a.monthlyHoursUsed
    ensures UsageCheck(a).warning100 <==> UsageCheck(a).limitExceeded
  {
    var limit := ConfiguredLimit(a);
    if limit > 0.0 {
      var p := a.monthlyHoursUsed / limit;
      assert p * limit == a.monthlyHoursUsed;
      assert a.monthlyHoursUsed >= limit <==> p >= 1.0;
    }
  }

  datatype UsageWarning =
    | TrialUsedUp                                   // "You've used your free 10 minutes. ..."
    | TrialRunningLow(minutesRemaining: real)       // "Trial warning: ... minutes remaining ..."
    | MonthlyLimitReached(resetDate: Option<Instant>) // "Monthly limit reached. [Resets on ...]"
    | MonthlyUsageHigh(hoursUsed: real, hoursLimit: real, hoursRemaining: real) // "Usage warning: ..."

  /** `get_usage_warning_message(usage_info)`. */
  function WarningMessage(c: LimitCheck): (w: Option<UsageWarning>)
    // The exhausted trial comes before the 80% warning.
    ensures c.TrialCheck? && c.limitExceeded ==> w == Some(TrialUsedUp)
    ensures c.TrialCheck? && !c.limitExceeded ==>
              w == if c.percentage >= 80.0 then Some(TrialRunningLow(c.minutesRemaining)) else None
    // The full quota comes before the 80% warning.
    ensures c.PaidCheck? && c.warning100 ==> w == Some(MonthlyLimitReached(c.resetDate))
    ensures c.PaidCheck? && !c.warning100 ==>
              w == if c.warning80 then Some(MonthlyUsageHigh(c.hoursUsed, c.hoursLimit, c.hoursRemaining)) else None
  {
    match c
    case TrialCheck(exceeded, _, remaining, percentage) =>
      if exceeded then Some(TrialUsedUp)
      else if percentage >= 80.0 then Some(TrialRunningLow(remaining))
      else None
    case PaidCheck(_, _, used, limit, remaining, _, resetDate, warning80, warning100) =>
      if warning100 then Some(MonthlyLimitReached(resetDate))
      else if warning80 then Some(MonthlyUsageHigh(used, limit, remaining))
      else None
  }

  /** For a trial account, the running-low warning appears exactly from 8 used minutes until
      the trial is used up. */
  lemma TrialWarningRange(a: Account)
    requires a.isTrialUser
    ensures var w := WarningMessage(UsageCheck(a));
            (w == Some(TrialUsedUp) <==> a.trialMinutesUsed >= 10.0)
            && (w.Some? && w.value.TrialRunningLow? <==> 8.0 <= a.trialMinutesUsed < 10.0)
  {
    var p := a.trialMinutesUsed / 10.0 * 100.0;
    assert p == a.trialMinutesUsed * 10.0;
  }

  /** For a subscriber with a positive limit, the limit-reached message appears exactly once
      the limit is used up. */
  lemma MonthlyWarningAtLimit(a: Account)
    requires !a.isTrialUser && 0.0 <= a.monthlyHoursUsed && ConfiguredLimit(a) > 0.0
    ensures var w := WarningMessage(UsageCheck(a));
            w.Some? && w.value.MonthlyLimitReached? <==> a.monthlyHoursUsed >= ConfiguredLimit(a)
  {
    FullWarningIffExceeded(a);
  }

  /** The next reset as written: `replace(year=y+1, month=1)` in December, otherwise
      `replace(month=m+1)`, which raises when the day does not exist in the next month. */
  function NextResetAsWritten(t: Instant): Result<Instant, string> {
    if t.date.month == 12 then ReplaceYearMonth(t, t.date.year + 1, 1)
    else ReplaceYearMonth(t, t.date.year, t.date.month + 1)
  }

  /** The input that shows it: a reset date on 31 January has no 31 February to move to. */
  lemma EndOfMonthResetFails()
    ensures NextResetAsWritten(DateTime(Date(2025, 1, 31), 0)).Err?
  {
  }

  /** The month after the month of `d`, keeping the year unless it is December. */
  function NextMonth(d: CivilDate): (ym: (int, int))
    ensures 1 <= ym.1 <= 12
  {
    if d.month == 12 then (d.year + 1, 1) else (d.year, d.month + 1)
  }

  /** The next reset, one month later on the same day, or on the last day of the next month
      when that month is shorter. */
  function NextReset(t: Instant): (next: Instant)
    ensures (next.date.year, next.date.month) == NextMonth(t.date)
    ensures next.micros == t.micros
    ensures next.date.day <= t.date.day
    ensures next.date.day == t.date.day || next.date.day == DaysInMonth(next.date.year, next.date.month)
  {
    var (y, m) := NextMonth(t.date);
    var day := if t.date.day <= DaysInMonth(y, m) then t.date.day else DaysInMonth(y, m);
    DateTime(Date(y, m, day), t.micros)
  }

  /** Wherever the code as written succeeds, the corrected reset agrees with it. */
  lemma NextResetAgrees(t: Instant)
    requires NextResetAsWritten(t).Ok?
    ensures NextResetAsWritten(t).value == NextReset(t)
  {
  }

  /** The reset always moves forward, by 28 to 31 days. */
  lemma NextResetAdvances(t: Instant)
    ensures 28 <= Ordinal(NextReset(t).date) - Ordinal(t.date) <= 31
    ensures Before(t, NextReset(t))
  {
    var d := t.date;
    var n := NextReset(t).date;
    if d.month == 12 {
      DaysBeforeNextYear(d.year);
      DaysBeforeDecember(d.year);
      assert Ordinal(n) == DaysBeforeYear(d.year) + DaysInYear(d.year) + n.day;
    } else {
      assert DaysBeforeMonth(d.year, d.month + 1) == DaysBeforeMonth(d.year, d.month) + DaysInMonth(d.year, d.month);
    }
  }

  datatype ResetReport =
    | ResetSkipped(message: string)
    | ResetDone(oldUsageHours: real, newUsageHours: real, nextReset: Instant, hoursLimit: Option<real>)

  /** `reset_monthly_usage(user_id)`, with the next reset date computed by `NextReset`. */
  method ResetMonthlyUsage(users: map<string, User>, userId: string, now: Instant)
    returns (r: Result<ResetReport, string>)
    modifies Row(users, userId)
    ensures userId !in users ==> r == Err(NotFound(userId))
    ensures userId in users ==> r.Ok?
    // Trial accounts have no monthly reset and are left alone.
    ensures userId in users && users[userId].isTrialUser ==>
              r.value == ResetSkipped("Trial users don't have monthly resets")
              && users[userId].Snapshot() == old(users[userId].Snapshot())
    // Other accounts start the month at zero hours, and the reset date moves one month on
    // (30 days from now when none was set); nothing else changes.
    ensures userId in users && !users[userId].isTrialUser ==>
              var u := users[userId];
              var next := match old(u.usageResetAt)
                          case Some(t) => NextReset(t)
                          case None => AddMicros(now, Days(30));
              u.Snapshot() == old(u.Snapshot()).(monthlyHoursUsed := 0.0, usageResetAt := Some(next))
              && r.value == ResetDone(old(u.monthlyHoursUsed), 0.0, next, u.monthlyHoursLimit)
  {
    if userId !in users {
      return Err(NotFound(userId));
    }
    var user := users[userId];
    if user.isTrialUser {
      return Ok(ResetSkipped("Trial users don't have monthly resets"));
    }
    var oldUsage := user.monthlyHoursUsed;
    user.monthlyHoursUsed := 0.0;
    var next: Instant;
    if user.usageResetAt.Some? {
      next := NextReset(user.usageResetAt.value);
    } else {
      next := AddMicros(now, Days(30));
    }
    user.usageResetAt := Some(next);
    return Ok(ResetDone(oldUsage, user.monthlyHoursUsed, next, user.monthlyHoursLimit));
  }

  datatype History =
    | TrialHistory(minutesUsed: real, minutesLimit: real, minutesRemaining: real, percentage: real)
    | PaidHistory(tier: Tier, hoursUsed: real, hoursLimit: real, hoursRemaining: real,
                  percentage: real, resetDate: Option<Instant>, anniversary: Option<CivilDate>)

  /** The result of `get_usage_history` for a found user. */
  function UsageHistory(a: Account): History {
    if a.isTrialUser then
      TrialHistory(a.trialMinutesUsed, TrialLimits.TrialMinutesLimit,
                   AtLeastZero(TrialLimits.TrialMinutesLimit - a.trialMinutesUsed),
                   a.trialMinutesUsed / TrialLimits.TrialMinutesLimit * 100.0)
    else
      var limit := ConfiguredLimit(a);
      PaidHistory(a.tier, a.monthlyHoursUsed, limit, AtLeastZero(limit - a.monthlyHoursUsed),
                  UsagePercentage(a.monthlyHoursUsed, limit), a.usageResetAt, a.anniversary)
  }

  /** `get_usage_history(user_id)`. */
  function GetUsageHistory(users: map<string, User>, userId: string): (r: Result<History, string>)
    reads users.Values
    ensures r.Err? <==> userId !in users
    ensures r.Err? ==> r.error == NotFound(userId)
    ensures r.Ok? ==> r.value == UsageHistory(users[userId].Snapshot())
  {
    if userId in users then Ok(UsageHistory(users[userId].Snapshot())) else Err(NotFound(userId))
  }

  /** The history reports the same usage, remaining amount and percentage as the limit check,
      and its remaining amount is never negative. */
  lemma HistoryMatchesCheck(a: Account)
    ensures UsageHistory(a).TrialHistory? <==> UsageCheck(a).TrialCheck?
    ensures UsageHistory(a).TrialHistory? ==>
              UsageHistory(a).minutesUsed == UsageCheck(a).minutesUsed
              && UsageHistory(a).minutesRemaining == UsageCheck(a).minutesRemaining
              && UsageHistory(a).percentage == UsageCheck(a).percentage
              && 0.0 <= UsageHistory(a).minutesRemaining
    ensures UsageHistory(a).PaidHistory? ==>
              UsageHistory(a).hoursUsed == UsageCheck(a).hoursUsed
              && UsageHistory(a).hoursLimit == UsageCheck(a).hoursLimit
              && UsageHistory(a).hoursRemaining == UsageCheck(a).hoursRemaining
              && UsageHistory(a).percentage == UsageCheck(a).percentage
              && 0.0 <= UsageHistory(a).hoursRemaining
  {
  }
}
