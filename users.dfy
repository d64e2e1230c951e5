/**
 * The user record that the quota, trial, gate, retention and payment rules read and update.
 * Field names follow the account columns; the payment provider's identifiers are the
 * `razorpay_*` columns the payment handlers use.
 */
module Accounts {
  import opened Wrappers
  import opened Clock

  datatype Tier = Free | Basic | Pro

  /** `SubscriptionTier.value`. */
  function TierValue(t: Tier): (v: string)
    ensures v in {"free", "basic", "pro"}
  {
    match t
    case Free => "free"
    case Basic => "basic"
    case Pro => "pro"
  }

  /** Python's truthiness of an optional string: None and "" are both false. */
  predicate Present(s: Option<string>) {
    s.Some? && s.value != ""
  }

  /** The columns of a user row, as one value. */
  datatype Account = Account(
    id: string,
    email: Option<string>,
    hashedPassword: Option<string>,
    fullName: Option<string>,
    isActive: bool,
    isVerified: bool,
    isTrialUser: bool,
    trialEmail: Option<string>,
    trialMinutesUsed: real,
    tier: Tier,
    customerId: Option<string>,
    subscriptionId: Option<string>,
    planId: Option<string>,
    expiresAt: Option<Instant>,
    monthlyHoursLimit: Option<real>,
    monthlyHoursUsed: real,
    anniversary: Option<CivilDate>,
    usageResetAt: Option<Instant>)

  /** A user row. The columns that no rule modelled here changes (identity, login and trial
      registration) are constants of the object. */
  class User {
    const id: string
    const email: Option<string>
    const hashedPassword: Option<string>
    const fullName: Option<string>
    const isActive: bool
    const isVerified: bool
    const isTrialUser: bool
    const trialEmail: Option<string>
    var trialMinutesUsed: real
    var tier: Tier
    var customerId: Option<string>
    var subscriptionId: Option<string>
    var planId: Option<string>
    var expiresAt: Option<Instant>
    var monthlyHoursLimit: Option<real>
    var monthlyHoursUsed: real
    var anniversary: Option<CivilDate>
    var usageResetAt: Option<Instant>

    /** The current values of all columns. */
    function Snapshot(): Account
      reads this
    {
      Account(id, email, hashedPassword, fullName, isActive, isVerified, isTrialUser, trialEmail,
              trialMinutesUsed, tier, customerId, subscriptionId, planId, expiresAt,
              monthlyHoursLimit, monthlyHoursUsed, anniversary, usageResetAt)
    }

    /** Usage only ever grows from zero by recorded durations, so it is never negative. */
    predicate Valid()
      reads this
    {
      0.0 <= trialMinutesUsed && 0.0 <= monthlyHoursUsed
    }

    /** The trial account `start_trial` creates: no login email and no password, tracked
        by its trial email, FREE tier, unverified and active; every other column takes its
        default. */
    constructor Trial(id: string, trialEmail: string)
      ensures Valid()
      ensures this.id == id && this.trialEmail == Some(trialEmail)
      ensures email == None && hashedPassword == None && fullName == None
      ensures isTrialUser && trialMinutesUsed == 0.0 && tier == Free
      ensures !isVerified && isActive
      ensures customerId == None && subscriptionId == None && planId == None
      ensures expiresAt == None && monthlyHoursLimit == None && monthlyHoursUsed == 0.0
      ensures anniversary == None && usageResetAt == None
    {
      this.id := id;
      email := None;
      hashedPassword := None;
      fullName := None;
      isActive := true;
      isVerified := false;
      isTrialUser := true;
      this.trialEmail := Some(trialEmail);
      trialMinutesUsed := 0.0;
      tier := Free;
      customerId := None;
      subscriptionId := None;
      planId := None;
      expiresAt := None;
      monthlyHoursLimit := None;
      monthlyHoursUsed := 0.0;
      anniversary := None;
      usageResetAt := None;
    }
  }
}
