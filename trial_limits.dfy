/**
 * Pre-recording quota checks (`check_trial_limits`, `check_usage_limits`): a trial account
 * has 10 free minutes in total, a Basic or Pro subscriber a monthly number of hours, and a
 * free account without a trial may not record at all. Rejections are the HTTP 403 details,
 * kept as data; the rendering of the numbers inside their messages is not modelled.
 */
module TrialLimits {
  import opened Wrappers
  import opened Clock
  import opened Accounts

  const TrialMinutesLimit: real := 10.0

  /** The `upgrade_url` of a monthly rejection: only Basic subscribers are pointed to it. */
  function UpgradeUrl(tier: Tier): Option<string> {
    if tier == Basic then Some("/subscribe") else None
  }

  datatype Rejection =
    | TrialLimitExceeded(trialMinutesUsed: real)
    | TrialLimitWouldExceed(trialMinutesUsed: real, remaining: real, duration: real)
    | MonthlyLimitExceeded(hoursUsed: real, hoursLimit: real, resetDate: Option<Instant>,
                           upgradeUrl: Option<string>)
    | MonthlyLimitWouldExceed(hoursUsed: real, remaining: real, hoursLimit: real,
                              durationHours: real, upgradeUrl: Option<string>)

  /** `check_trial_limits(user, duration_minutes)`: None when the call returns normally. */
  function CheckTrialLimits(user: User, durationMinutes: real): (rejected: Option<Rejection>)
    reads user
    ensures !user.isTrialUser ==> rejected == None
    ensures user.isTrialUser && user.trialMinutesUsed >= TrialMinutesLimit ==>
              rejected == Some(TrialLimitExceeded(user.trialMinutesUsed))
    // A trial user passes exactly when minutes remain and the recording fits into them.
    ensures user.isTrialUser ==>
              (rejected == None <==>
                 user.trialMinutesUsed < TrialMinutesLimit
                 && (durationMinutes <= 0.0 || user.trialMinutesUsed + durationMinutes <= TrialMinutesLimit))
    ensures rejected.Some? && rejected.value.TrialLimitWouldExceed? ==>
              rejected.value.remaining == TrialMinutesLimit - user.trialMinutesUsed
              && 0.0 < rejected.value.remaining < durationMinutes
  {
    if !user.isTrialUser then None
    else if user.trialMinutesUsed >= TrialMinutesLimit then
      Some(TrialLimitExceeded(user.trialMinutesUsed))
    else if durationMinutes > 0.0 && user.trialMinutesUsed + durationMinutes > TrialMinutesLimit then
      Some(TrialLimitWouldExceed(user.trialMinutesUsed, TrialMinutesLimit - user.trialMinutesUsed,
                                 durationMinutes))
    else None
  }

  /** A recording that uses up the trial exactly is still allowed. */
  lemma LandingOnLimitAllowed(user: User, durationMinutes: real)
    requires user.isTrialUser && user.trialMinutesUsed + durationMinutes == TrialMinutesLimit
    requires 0.0 < durationMinutes
    ensures CheckTrialLimits(user, durationMinutes) == None
  {
  }

  datatype PaidWarning =
    | PercentUsed(percentage: real)   // "Warning: {pct:.0f}% of monthly limit used"
    | LastHour                        // "Less than 1 hour remaining this month"

  datatype UsageInfo =
    | TrialUsage(minutesUsed: real, minutesRemaining: real, lowWarning: bool)
    | PaidUnlimited
    | PaidUsage(tier: Tier, hoursUsed: real, hoursRemaining: real, hoursLimit: real,
                percentage: real, resetDate: Option<Instant>, warning: Option<PaidWarning>)
    | FreeAccount(message: string)

  /** The warning of a paid subscriber within the limit. */
  function PaidWarningFor(percentage: real, remaining: real): Option<PaidWarning> {
    if percentage >= 90.0 then Some(PercentUsed(percentage))
    else if remaining < 1.0 then Some(LastHour)
    else None
  }

  /** The subscriber branch of `check_usage_limits` once a limit is configured. */
  function CheckMonthlyLimit(tier: Tier, used: real, limit: real, resetDate: Option<Instant>,
                             durationMinutes: real): (r: Result<UsageInfo, Rejection>)
    requires 0.0 <= used
    // Rejected once the limit is reached or when the recording would pass it.
    ensures r.Err? <==> used >= limit || (durationMinutes > 0.0 && used + durationMinutes / 60.0 > limit)
    ensures used >= limit ==> r == Err(MonthlyLimitExceeded(used, limit, resetDate, UpgradeUrl(tier)))
    ensures r.Err? && used < limit ==>
              r == Err(MonthlyLimitWouldExceed(used, limit - used, limit, durationMinutes / 60.0, UpgradeUrl(tier)))
    // Within the limit the percentage is below 100, hours remain, and no division by zero
    // can happen.
    ensures r.Ok? ==> r.value.PaidUsage? && r.value.tier == tier && 0.0 < limit
                      && r.value.hoursUsed == used && r.value.hoursLimit == limit
                      && r.value.hoursRemaining == limit - used && 0.0 < r.value.hoursRemaining
                      && r.value.percentage == used / limit * 100.0
                      && 0.0 <= r.value.percentage < 100.0
                      && r.value.warning == PaidWarningFor(r.value.percentage, r.value.hoursRemaining)
                      && r.value.resetDate == resetDate
  {
    if used >= limit then
      Err(MonthlyLimitExceeded(used, limit, resetDate, UpgradeUrl(tier)))
    else if durationMinutes > 0.0 && used + durationMinutes / 60.0 > limit then
      Err(MonthlyLimitWouldExceed(used, limit - used, limit, durationMinutes / 60.0, UpgradeUrl(tier)))
    else
      var remaining := limit - used;
      var percentage := used / limit * 100.0;
      PercentBelowHundred(used, limit);
      Ok(PaidUsage(tier, used, remaining, limit, percentage, resetDate, PaidWarningFor(percentage, remaining)))
  }

  /** `check_usage_limits(user, duration_minutes)`, with the reset date in a monthly
      rejection optional (see `CheckUsageLimitsAsWritten` for the code as written). */
  function CheckUsageLimits(user: User, durationMinutes: real): (r: Result<UsageInfo, Rejection>)
    reads user
    requires user.Valid()
    // Trial accounts: the trial rule decides; on success the remaining minutes are positive
    // and the warning is raised exactly when fewer than two remain.
    ensures user.isTrialUser ==>
              (r.Err? <==> CheckTrialLimits(user, durationMinutes).Some?)
    ensures user.isTrialUser && r.Err? ==> r.error == CheckTrialLimits(user, durationMinutes).value
    ensures user.isTrialUser && r.Ok? ==>
              r.value.TrialUsage? && r.value.minutesUsed == user.trialMinutesUsed
              && r.value.minutesRemaining == TrialMinutesLimit - user.trialMinutesUsed
              && 0.0 < r.value.minutesRemaining
              && (r.value.lowWarning <==> r.value.minutesRemaining < 2.0)
    // Subscribers without a configured limit are unlimited; with one, the monthly rule decides.
    ensures !user.isTrialUser && user.tier != Free && user.monthlyHoursLimit.None? ==> r == Ok(PaidUnlimited)
    ensures !user.isTrialUser && user.tier != Free && user.monthlyHoursLimit.Some? ==>
              r == CheckMonthlyLimit(user.tier, user.monthlyHoursUsed, user.monthlyHoursLimit.value,
                                     user.usageResetAt, durationMinutes)
    ensures !user.isTrialUser && user.tier == Free ==> r == Ok(FreeAccount("Subscribe to start recording"))
  {
    if user.isTrialUser then
      match CheckTrialLimits(user, durationMinutes)
      case Some(rejection) => Err(rejection)
      case None =>
        var remaining := TrialMinutesLimit - user.trialMinutesUsed;
        Ok(TrialUsage(user.trialMinutesUsed, remaining, remaining < 2.0))
    else if user.tier != Free then
      if user.monthlyHoursLimit.None? then Ok(PaidUnlimited)
      else CheckMonthlyLimit(user.tier, user.monthlyHoursUsed, user.monthlyHoursLimit.value,
                             user.usageResetAt, durationMinutes)
    else Ok(FreeAccount("Subscribe to start recording"))
  }

  lemma PercentBelowHundred(used: real, limit: real)
    requires 0.0 <= used < limit
    ensures 0.0 <= used / limit * 100.0 < 100.0
  {
    assert used / limit * limit == used;
  }

  /** The failure of the code as written: a rejection, or an exception escaping the check. */
  datatype Failure = Rejected(rejection: Rejection) | Crashed(message: string)

  /** `check_usage_limits` as written: the monthly rejection formats `usage_reset_at` with
      `strftime` before the None test a few lines below it, so a subscriber at the limit
      without a reset date gets an AttributeError instead of the 403 rejection. */
  function CheckUsageLimitsAsWritten(user: User, durationMinutes: real): (r: Result<UsageInfo, Failure>)
    reads user
    requires user.Valid()
    ensures r.Err? && r.error.Crashed? ==>
              r.error.message == "'NoneType' object has no attribute 'strftime'"
  {
    var corrected := CheckUsageLimits(user, durationMinutes);
    if corrected.Err? && corrected.error.MonthlyLimitExceeded? && user.usageResetAt.None? then
      Err(Crashed("'NoneType' object has no attribute 'strftime'"))
    else if corrected.Err? then Err(Rejected(corrected.error))
    else Ok(corrected.value)
  }

  /** The input that shows it: a Basic subscriber who has used the full 10 hours and has
      never had a reset date set. */
  lemma ResetDateCrash(user: User)
    requires user.Valid() && !user.isTrialUser && user.tier == Basic
    requires user.monthlyHoursLimit == Some(10.0) && user.monthlyHoursUsed == 10.0
    requires user.usageResetAt == None
    ensures CheckUsageLimitsAsWritten(user, 0.0).Err?
    ensures CheckUsageLimitsAsWritten(user, 0.0).error.Crashed?
    ensures CheckUsageLimits(user, 0.0) == Err(MonthlyLimitExceeded(10.0, 10.0, None, Some("/subscribe")))
  {
  }

  /** Everywhere else the code as written and the corrected check agree. */
  lemma AsWrittenAgreesWithReset(user: User, durationMinutes: real)
    requires user.Valid() && user.usageResetAt.Some?
    ensures CheckUsageLimitsAsWritten(user, durationMinutes) ==
              match CheckUsageLimits(user, durationMinutes)
              case Ok(info) => Ok(info)
              case Err(rejection) => Err(Rejected(rejection))
  {
  }
}
