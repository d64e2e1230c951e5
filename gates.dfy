/**
 * The request dependencies (`app/core/dependencies.py`): authentication of the bearer token's
 * user, the usage-limit gate, and the feature gates by subscription tier. Token decoding is
 * done by a library: its outcome is the `payload` parameter. Every gate only inspects the
 * user and either admits it or refuses with HTTP 403.
 */
module Gates {
  import opened Wrappers
  import opened Clock
  import opened Http
  import opened Accounts
  import UsageTracking

  /** What `decode_access_token` yields for a token that decodes: its `user_id` claim. */
  datatype TokenPayload = TokenPayload(userId: Option<string>)

  const CredentialsMessage := "Could not validate credentials"

  /** `get_current_user`: `payload` is None when the token does not decode. */
  function GetCurrentUser(payload: Option<TokenPayload>, users: map<string, User>): (r: Result<User, HttpError>)
    reads users.Values
    // 401 when decoding fails, the claim is missing or the user is unknown.
    ensures (payload.None? || payload.value.userId.None? || payload.value.userId.value !in users) ==>
              r == Err(HttpError(Unauthorized, CredentialsMessage))
    // 403 for a known but inactive user; otherwise that user.
    ensures payload.Some? && payload.value.userId.Some? && payload.value.userId.value in users ==>
              var u := users[payload.value.userId.value];
              r == if u.isActive then Ok(u) else Err(HttpError(Forbidden, "Inactive user"))
    ensures r.Ok? ==> r.value.isActive && r.value in users.Values
  {
    if payload.None? || payload.value.userId.None? || payload.value.userId.value !in users then
      Err(HttpError(Unauthorized, CredentialsMessage))
    else
      var u := users[payload.value.userId.value];
      if u.isActive then Ok(u) else Err(HttpError(Forbidden, "Inactive user"))
  }

  /** `get_optional_user`: never raises; `hasCredentials` is whether a bearer token was sent. */
  function GetOptionalUser(hasCredentials: bool, payload: Option<TokenPayload>, users: map<string, User>)
    : (r: Option<User>)
    reads users.Values
    // It yields a user exactly when authentication would succeed, and then the same user.
    ensures r.Some? <==> hasCredentials && GetCurrentUser(payload, users).Ok?
    ensures r.Some? ==> r.value == GetCurrentUser(payload, users).value
  {
    if !hasCredentials || payload.None? || payload.value.userId.None? || payload.value.userId.value !in users then
      None
    else
      var u := users[payload.value.userId.value];
      if u.isActive then Some(u) else None
  }

  /** The 403 refusals of the gates. */
  datatype Denial =
    | TrialLimitReached(trialMinutesUsed: real)
    | MonthlyLimitReached(hoursUsed: real, hoursLimit: real, resetDate: Option<Instant>, upgradeAvailable: bool)
    | TrialCannotSave                // "Trial users cannot save summaries"
    | SubscriptionRequired           // "Subscription required"
    | ProRequired(message: string, currentTier: string)
    | RegenerationRequiresPro(message: string, currentTier: string)
    | RegistrationRequired           // "Account registration required"

  /** `check_usage_limit` for a user that authentication found in `users`. */
  function CheckUsageGate(users: map<string, User>, user: User): (r: Result<User, Denial>)
    reads users.Values
    requires user.id in users && users[user.id] == user
    ensures var c := UsageTracking.UsageCheck(user.Snapshot());
            (r.Err? <==> c.limitExceeded)
            && (r.Ok? ==> r.value == user)
    ensures r.Err? && user.isTrialUser ==> r.error == TrialLimitReached(user.trialMinutesUsed)
    // A refused subscriber is offered an upgrade exactly when on the Basic tier.
    ensures r.Err? && !user.isTrialUser ==>
              r.error.MonthlyLimitReached? && r.error.hoursUsed == user.monthlyHoursUsed
              && r.error.resetDate == user.usageResetAt
              && (r.error.upgradeAvailable <==> user.tier == Basic)
  {
    var check := UsageTracking.CheckUsageLimit(users, user.id);
    var c := check.value;
    if !c.limitExceeded then Ok(user)
    else match c
      case TrialCheck(_, used, _, _) => Err(TrialLimitReached(used))
      case PaidCheck(_, tier, used, limit, _, _, resetDate, _, _) =>
        Err(MonthlyLimitReached(used, limit, resetDate, tier.Basic?))
  }

  /** `require_basic_or_higher`. The tier column is not nullable, so the source's test for a
      missing tier reduces to FREE. */
  function RequireBasicOrHigher(user: User): (r: Result<User, Denial>)
    reads user
    ensures r.Ok? <==> !user.tier.Free?
    ensures r.Ok? ==> r.value == user
    ensures r.Err? ==> r.error == if user.isTrialUser then TrialCannotSave else SubscriptionRequired
  {
    if user.tier.Free? then
      if user.isTrialUser then Err(TrialCannotSave) else Err(SubscriptionRequired)
    else Ok(user)
  }

  /** The `current_tier` reported by the Pro gates. */
  datatype Plan = TrialPlan | BasicPlan | FreePlan

  function PlanName(p: Plan): string {
    match p
    case TrialPlan => "trial"
    case BasicPlan => "basic"
    case FreePlan => "free"
  }

  /** The plan a non-Pro user is reported on: trial before basic before free. */
  function CurrentPlan(user: User): (plan: Plan)
    reads user
    requires !user.tier.Pro?
    ensures plan.TrialPlan? <==> user.isTrialUser
    ensures plan.BasicPlan? <==> !user.isTrialUser && user.tier.Basic?
    ensures plan.FreePlan? <==> !user.isTrialUser && user.tier.Free?
  {
    if user.isTrialUser then TrialPlan else if user.tier.Basic? then BasicPlan else FreePlan
  }

  const UpgradeToPro := "Upgrade to Pro plan for 10-day audio retention and regeneration."
  const SubscribeToPro := "Subscribe to Pro plan for 10-day audio retention and regeneration."
  const RegenerateUpgrade := "Regeneration requires Pro plan with audio retention. Upgrade to Pro to regenerate summaries with different formats."
  const RegenerateNeedsPro := "Regeneration requires Pro plan with audio retention enabled."

  /** `require_pro`. */
  function RequirePro(user: User): (r: Result<User, Denial>)
    reads user
    ensures r.Ok? <==> user.tier.Pro?
    ensures r.Ok? ==> r.value == user
    // A trial or Basic account is told to upgrade, a free account to subscribe.
    ensures r.Err? ==>
              r == Err(ProRequired(if CurrentPlan(user).FreePlan? then SubscribeToPro else UpgradeToPro,
                                   PlanName(CurrentPlan(user))))
  {
    if !user.tier.Pro? then
      var plan := CurrentPlan(user);
      var message := if plan.TrialPlan? || plan.BasicPlan? then UpgradeToPro else SubscribeToPro;
      Err(ProRequired(message, PlanName(plan)))
    else Ok(user)
  }

  /** `require_can_regenerate`. */
  function RequireCanRegenerate(user: User): (r: Result<User, Denial>)
    reads user
    ensures r.Ok? <==> user.tier.Pro?
    ensures r.Ok? ==> r.value == user
    // Only a Basic subscriber gets the longer upgrade text.
    ensures r.Err? ==>
              r == Err(RegenerationRequiresPro(if CurrentPlan(user).BasicPlan? then RegenerateUpgrade else RegenerateNeedsPro,
                                               PlanName(CurrentPlan(user))))
  {
    if !user.tier.Pro? then
      var plan := CurrentPlan(user);
      var message := if plan.BasicPlan? then RegenerateUpgrade else RegenerateNeedsPro;
      Err(RegenerationRequiresPro(message, PlanName(plan)))
    else Ok(user)
  }

  /** `require_paid_user`: only trial accounts are refused. */
  function RequirePaidUser(user: User): (r: Result<User, Denial>)
    reads user
    ensures r.Ok? <==> !user.isTrialUser
    ensures r.Ok? ==> r.value == user
    ensures r.Err? ==> r.error == RegistrationRequired
  {
    if user.isTrialUser then Err(RegistrationRequired) else Ok(user)
  }

  /** The gates are nested: whoever passes the Pro gate passes the Basic gate, and the two Pro
      gates admit the same users. */
  lemma GatesNested(user: User)
    ensures RequirePro(user).Ok? ==> RequireBasicOrHigher(user).Ok?
    ensures RequirePro(user).Ok? <==> RequireCanRegenerate(user).Ok?
  {
  }
}
