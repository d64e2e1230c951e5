/**
 * Subscriptions through the payment provider (`app/api/payments.py`): validation of the plan
 * and billing interval a user asks for, the provider plan each pair maps to, the checkout and
 * plan-change endpoints, the webhook that moves an account between tiers, and the manual
 * activation fallback. The provider's replies, the signature check, the JSON decoding, the
 * time conversion of provider timestamps and today's date are parameters.
 */
module Payments {
  import opened Wrappers
  import opened Clock
  import opened Http
  import opened Accounts
  import opened PyStr
  import UsageTracking

  datatype Plan = BasicPlan | ProPlan
  datatype Interval = Month | Year

  /** The keys of `PRICING_PLANS`: exactly "basic" and "pro". */
  function ParsePlan(s: string): (p: Option<Plan>)
    ensures p == Some(BasicPlan) <==> s == "basic"
    ensures p == Some(ProPlan) <==> s == "pro"
  {
    if s == "basic" then Some(BasicPlan) else if s == "pro" then Some(ProPlan) else None
  }

  function PlanKey(p: Plan): string {
    match p
    case BasicPlan => "basic"
    case ProPlan => "pro"
  }

  /** The display `name` of a plan. */
  function PlanDisplayName(p: Plan): string {
    match p
    case BasicPlan => "Basic"
    case ProPlan => "Pro"
  }

  function PlanTier(p: Plan): (t: Tier)
    ensures t != Free
  {
    match p
    case BasicPlan => Basic
    case ProPlan => Pro
  }

  /** The monthly hours an activated plan grants. */
  function PlanHours(p: Plan): (h: real)
    ensures h > 0.0
  {
    match p
    case BasicPlan => 10.0
    case ProPlan => 50.0
  }

  lemma ParsePlanKey(p: Plan)
    ensures ParsePlan(PlanKey(p)) == Some(p)
    ensures TierValue(PlanTier(p)) == PlanKey(p)
  {
  }

  const InvalidPlanMessage := "Invalid plan selected"
  const InvalidIntervalMessage := "Invalid interval. Must be 'month' or 'year'"

  /** The plan parameter, lower-cased and stripped, must name a plan. */
  function ValidatePlan(raw: string): (r: Result<Plan, HttpError>)
    ensures r.Ok? <==> ParsePlan(Strip(Lower(raw))).Some?
    ensures r.Ok? ==> r.value == ParsePlan(Strip(Lower(raw))).value
    ensures r.Err? ==> r.error == HttpError(BadRequest, InvalidPlanMessage)
  {
    match ParsePlan(Strip(Lower(raw)))
    case Some(p) => Ok(p)
    case None => Err(HttpError(BadRequest, InvalidPlanMessage))
  }

  function ParseInterval(s: string): (i: Option<Interval>)
    ensures i == Some(Month) <==> s == "month"
    ensures i == Some(Year) <==> s == "year"
  {
    if s == "month" then Some(Month) else if s == "year" then Some(Year) else None
  }

  function IntervalKey(i: Interval): string {
    match i
    case Month => "month"
    case Year => "year"
  }

  /** The interval parameter, lower-cased and stripped, must be "month" or "year". */
  function ValidateInterval(raw: string): (r: Result<Interval, HttpError>)
    ensures r.Ok? <==> ParseInterval(Strip(Lower(raw))).Some?
    ensures r.Ok? ==> r.value == ParseInterval(Strip(Lower(raw))).value
    ensures r.Err? ==> r.error == HttpError(BadRequest, InvalidIntervalMessage)
  {
    match ParseInterval(Strip(Lower(raw)))
    case Some(i) => Ok(i)
    case None => Err(HttpError(BadRequest, InvalidIntervalMessage))
  }

  /** The provider plan of a plan and interval: `monthly_plan_id` for a month,
      `annual_plan_id` for a year. */
  const BasicMonthlyId := "plan_S4ebA2udNY8X5M"
  const BasicAnnualId := "plan_S4ebnOm5UdkjPT"
  const ProMonthlyId := "plan_S4ecU7WUVvD2Tw"
  const ProAnnualId := "plan_S4ecvFLb3EhCFJ"

  function PlanId(p: Plan, i: Interval): string {
    match (p, i)
    case (BasicPlan, Month) => BasicMonthlyId
    case (BasicPlan, Year) => BasicAnnualId
    case (ProPlan, Month) => ProMonthlyId
    case (ProPlan, Year) => ProAnnualId
  }

  /** Which plan and interval a provider plan id belongs to. */
  function PlanOfId(id: string): (r: Option<(Plan, Interval)>)
    ensures r.Some? ==> PlanId(r.value.0, r.value.1) == id
  {
    if id == BasicMonthlyId then Some((BasicPlan, Month))
    else if id == BasicAnnualId then Some((BasicPlan, Year))
    else if id == ProMonthlyId then Some((ProPlan, Month))
    else if id == ProAnnualId then Some((ProPlan, Year))
    else None
  }

  /** Each plan and interval has its own provider plan. */
  lemma PlanIdsDistinct(p: Plan, i: Interval)
    ensures PlanOfId(PlanId(p, i)) == Some((p, i))
  {
  }

  /** The number of billing cycles requested: 12 for a year, 120 for a month. */
  function TotalCount(i: Interval): nat {
    match i
    case Year => 12
    case Month => 120
  }

  /** A failed call to the provider: its bad-request error, or any other exception. */
  datatype ProviderError = ProviderBadRequest(message: string) | ProviderFailure(message: string)

  /** How an endpoint reports a provider failure: 400 with the error's text for a bad
      request, otherwise 500 with the endpoint's prefix. */
  function ProviderResponse(e: ProviderError, prefix: string): (r: HttpError)
    ensures e.ProviderBadRequest? ==> r == HttpError(BadRequest, e.message)
    ensures e.ProviderFailure? ==> r == HttpError(InternalServerError, prefix + e.message)
  {
    match e
    case ProviderBadRequest(m) => HttpError(BadRequest, m)
    case ProviderFailure(m) => HttpError(InternalServerError, prefix + m)
  }

  /** A paid tier whose expiry is still ahead. */
  predicate ActiveSubscription(a: Account, now: Instant) {
    a.tier != Free && a.expiresAt.Some? && Before(now, a.expiresAt.value)
  }

  const AlreadySubscribed := "You already have an active subscription. Please cancel it first."
  const NotConfigured := "Payment processing is not configured"

  /** The checks of `create_checkout_session` before any provider call, in their order. */
  function CheckoutChecks(user: Account, rawPlan: string, rawInterval: string, keyId: string, now: Instant)
    : (r: Result<(Plan, Interval), HttpError>)
    ensures ValidatePlan(rawPlan).Err? ==> r == Err(ValidatePlan(rawPlan).error)
    ensures ValidatePlan(rawPlan).Ok? && ValidateInterval(rawInterval).Err? ==>
              r == Err(ValidateInterval(rawInterval).error)
    // Once both parameters are valid: 503 without a provider key of at least 10
    // characters, then 400 while a paid subscription is still running; otherwise the
    // validated plan and interval.
    ensures ValidatePlan(rawPlan).Ok? && ValidateInterval(rawInterval).Ok? ==>
              r == if |keyId| < 10 then Err(HttpError(ServiceUnavailable, NotConfigured))
                   else if ActiveSubscription(user, now) then Err(HttpError(BadRequest, AlreadySubscribed))
                   else Ok((ValidatePlan(rawPlan).value, ValidateInterval(rawInterval).value))
  {
    if ValidatePlan(rawPlan).Err? then Err(ValidatePlan(rawPlan).error)
    else if ValidateInterval(rawInterval).Err? then Err(ValidateInterval(rawInterval).error)
    else if keyId == "" || |keyId| < 10 then Err(HttpError(ServiceUnavailable, NotConfigured))
    else if user.tier != Free && user.expiresAt.Some? && Before(now, user.expiresAt.value) then
      Err(HttpError(BadRequest, AlreadySubscribed))
    else Ok((ValidatePlan(rawPlan).value, ValidateInterval(rawInterval).value))
  }

  /** The subscription `create_checkout_session` and `change_plan` ask the provider for. */
  datatype SubscriptionRequest = SubscriptionRequest(planId: string, customerId: Option<string>, userId: string,
                                                     plan: string, interval: string, totalCount: nat)

  function RequestFor(p: Plan, i: Interval, customerId: Option<string>, userId: string): (q: SubscriptionRequest)
    ensures q.planId == PlanId(p, i) && q.totalCount == TotalCount(i)
    ensures q.plan == PlanKey(p) && q.interval == IntervalKey(i)
    ensures q.customerId == customerId && q.userId == userId
  {
    SubscriptionRequest(PlanId(p, i), customerId, userId, PlanKey(p), IntervalKey(i), TotalCount(i))
  }

  datatype CheckoutInfo = CheckoutInfo(subscriptionId: string, planId: string, keyId: string, customerId: string)

  const CheckoutPrefix := "Error creating subscription: "

  /** What checkout does once its checks pass, from account `a` to account `b`: a missing
      customer is created first and kept even when the subscription fails; a created
      subscription is recorded with its provider plan. */
  ghost predicate Subscribed(a: Account, p: Plan, i: Interval, keyId: string,
                             customerReply: Result<string, ProviderError>, subscriptionReply: Result<string, ProviderError>,
                             r: Result<CheckoutInfo, HttpError>, request: Option<SubscriptionRequest>, b: Account)
  {
    var customer := if Present(a.customerId) then Ok(a.customerId.value) else customerReply;
    match customer
    case Err(e) => r == Err(ProviderResponse(e, CheckoutPrefix)) && request == None && b == a
    case Ok(cid) =>
      request == Some(RequestFor(p, i, Some(cid), a.id))
      && match subscriptionReply
         case Err(e) => r == Err(ProviderResponse(e, CheckoutPrefix)) && b == a.(customerId := Some(cid))
         case Ok(sid) =>
           r == Ok(CheckoutInfo(sid, PlanId(p, i), keyId, cid))
           && b == a.(customerId := Some(cid), subscriptionId := Some(sid), planId := Some(PlanId(p, i)))
  }

  /** `create_checkout_session(plan, interval)`. `customerReply` is the provider's answer to
      creating a customer (asked only when the user has none), `subscriptionReply` its answer
      to creating the subscription `request`. */
  method CreateCheckoutSession(user: User, rawPlan: string, rawInterval: string, keyId: string, now: Instant,
                               customerReply: Result<string, ProviderError>,
                               subscriptionReply: Result<string, ProviderError>)
    returns (r: Result<CheckoutInfo, HttpError>, request: Option<SubscriptionRequest>)
    modifies user
    ensures old(CheckoutChecks(user.Snapshot(), rawPlan, rawInterval, keyId, now)).Err? ==>
              r == Err(old(CheckoutChecks(user.Snapshot(), rawPlan, rawInterval, keyId, now)).error)
              && request == None && user.Snapshot() == old(user.Snapshot())
    ensures old(CheckoutChecks(user.Snapshot(), rawPlan, rawInterval, keyId, now)).Ok? ==>
              var (p, i) := old(CheckoutChecks(user.Snapshot(), rawPlan, rawInterval, keyId, now)).value;
              Subscribed(old(user.Snapshot()), p, i, keyId, customerReply, subscriptionReply, r, request, user.Snapshot())
  {
    var checks := CheckoutChecks(user.Snapshot(), rawPlan, rawInterval, keyId, now);
    if checks.Err? {
      return Err(checks.error), None;
    }
    var (p, i) := checks.value;
    r, request := Subscribe(user, p, i, keyId, customerReply, subscriptionReply);
  }

  /** The provider calls of `create_checkout_session` after its checks. */
  method Subscribe(user: User, p: Plan, i: Interval, keyId: string,
                   customerReply: Result<string, ProviderError>, subscriptionReply: Result<string, ProviderError>)
    returns (r: Result<CheckoutInfo, HttpError>, request: Option<SubscriptionRequest>)
    modifies user
    ensures Subscribed(old(user.Snapshot()), p, i, keyId, customerReply, subscriptionReply, r, request, user.Snapshot())
  {
    var cid: string;
    if Present(user.customerId) {
      cid := user.customerId.value;
    } else {
      if customerReply.Err? {
        return Err(ProviderResponse(customerReply.error, CheckoutPrefix)), None;
      }
      cid := customerReply.value;
    }
    ghost var a := user.Snapshot();
    user.customerId := Some(cid);
    assert user.Snapshot() == a.(customerId := Some(cid));
    request := Some(RequestFor(p, i, Some(cid), user.id));
    if subscriptionReply.Err? {
      return Err(ProviderResponse(subscriptionReply.error, CheckoutPrefix)), request;
    }
    var sid := subscriptionReply.value;
    user.subscriptionId := Some(sid);
    user.planId := Some(PlanId(p, i));
    assert user.Snapshot() == a.(customerId := Some(cid), subscriptionId := Some(sid), planId := Some(PlanId(p, i)));
    r := Ok(CheckoutInfo(sid, PlanId(p, i), keyId, cid));
  }

  /** The subscription entity a webhook carries. A note plan that is absent reads as "";
      `periodEnd` is `current_end` converted by `datetime.fromtimestamp`, and None when
      `current_end` is absent or 0, which the handlers skip. */
  datatype SubscriptionEntity = SubscriptionEntity(id: string, customerId: Option<string>, planId: Option<string>,
                                                   notePlan: string, periodEnd: Option<Instant>)

  /** A plan takes effect: its tier and hours, a fresh month of usage from `today`, and the
      period end as expiry and reset time when the provider gives one. */
  function Activation(a: Account, p: Plan, planId: Option<string>, periodEnd: Option<Instant>, today: CivilDate): (b: Account)
    ensures b.tier == PlanTier(p) && b.monthlyHoursLimit == Some(PlanHours(p))
    ensures b.monthlyHoursUsed == 0.0 && b.anniversary == Some(today) && b.planId == planId
    ensures b.expiresAt == (if periodEnd.Some? then periodEnd else a.expiresAt)
    ensures b.usageResetAt == (if periodEnd.Some? then periodEnd else a.usageResetAt)
  {
    a.(tier := PlanTier(p), monthlyHoursLimit := Some(PlanHours(p)), planId := planId,
       anniversary := Some(today), monthlyHoursUsed := 0.0,
       expiresAt := if periodEnd.Some? then periodEnd else a.expiresAt,
       usageResetAt := if periodEnd.Some? then periodEnd else a.usageResetAt)
  }

  /** A subscriber who was just activated is within the monthly limit. */
  lemma ActivationAllowsRecording(a: Account, p: Plan, planId: Option<string>, periodEnd: Option<Instant>,
                                  today: CivilDate)
    requires !a.isTrialUser
    ensures var c := UsageTracking.UsageCheck(Activation(a, p, planId, periodEnd, today));
            c.PaidCheck? && !c.limitExceeded && c.hoursLimit == PlanHours(p) && c.percentage == 0.0
  {
    var b := Activation(a, p, planId, periodEnd, today);
    assert UsageTracking.ConfiguredLimit(b) == PlanHours(p);
  }

  /** `subscription.cancelled`: back to FREE without subscription, expiry or limit. */
  function Cancelled(a: Account): (b: Account)
    ensures b.tier == Free && b.subscriptionId == None && b.planId == None
    ensures b.expiresAt == None && b.monthlyHoursLimit == None && b.monthlyHoursUsed == 0.0
    ensures b.(tier := a.tier, subscriptionId := a.subscriptionId, planId := a.planId, expiresAt := a.expiresAt,
               monthlyHoursLimit := a.monthlyHoursLimit, monthlyHoursUsed := a.monthlyHoursUsed) == a
  {
    a.(tier := Free, subscriptionId := None, planId := None, expiresAt := None, monthlyHoursLimit := None,
       monthlyHoursUsed := 0.0)
  }

  /** `subscription.halted`: the expiry moves one day before `now`. */
  function Halted(a: Account, now: Instant): (b: Account)
    ensures b.expiresAt.Some? && Micros(b.expiresAt.value) == Micros(now) - Days(1)
    ensures b.(expiresAt := a.expiresAt) == a
  {
    a.(expiresAt := Some(AddMicros(now, -Days(1))))
  }

  /** `subscription.charged`: a new period end becomes expiry and reset time. */
  function Charged(a: Account, periodEnd: Option<Instant>): (b: Account)
    ensures periodEnd.Some? ==>
              b == a.(expiresAt := periodEnd, usageResetAt := periodEnd)
    ensures !periodEnd.Some? ==> b == a
  {
    if periodEnd.Some? then
      a.(expiresAt := periodEnd, usageResetAt := periodEnd)
    else a
  }

  /** `subscription.updated`: a new period end becomes the expiry. */
  function Updated(a: Account, periodEnd: Option<Instant>): (b: Account)
    ensures periodEnd.Some? ==> b == a.(expiresAt := periodEnd)
    ensures !periodEnd.Some? ==> b == a
  {
    if periodEnd.Some? then a.(expiresAt := periodEnd) else a
  }

  /** After a cancellation or a halt the account holds no running subscription, so a new
      checkout is not refused for it. */
  lemma EndedSubscriptionsInactive(a: Account, now: Instant)
    ensures !ActiveSubscription(Cancelled(a), now)
    ensures !ActiveSubscription(Halted(a, now), now)
  {
  }

  /** A cancelled account can no longer record as a subscriber. */
  lemma CancelledStopsPaidUsage(a: Account)
    requires !a.isTrialUser
    ensures var c := UsageTracking.UsageCheck(Cancelled(a));
            c.PaidCheck? && c.tier == Free && c.hoursLimit == 0.0 && !c.limitExceeded
  {
  }

  /** The users by `razorpay_customer_id`. */
  function Customer(customers: map<string, User>, customerId: Option<string>): set<User> {
    if customerId.Some? && customerId.value in customers then {customers[customerId.value]} else {}
  }

  /** The assignments shared by the webhook's activation and the manual one. */
  method Activate(u: User, p: Plan, planId: Option<string>, periodEnd: Option<Instant>, today: CivilDate)
    modifies u
    ensures u.Snapshot() == Activation(old(u.Snapshot()), p, planId, periodEnd, today)
  {
    ghost var b := Activation(u.Snapshot(), p, planId, periodEnd, today);
    u.tier := PlanTier(p);
    u.monthlyHoursLimit := Some(PlanHours(p));
    u.planId := planId;
    u.anniversary := Some(today);
    if periodEnd.Some? {
      u.expiresAt := periodEnd;
      u.usageResetAt := periodEnd;
    }
    u.monthlyHoursUsed := 0.0;
    assert u.Snapshot() == b;
  }

  /** `handle_subscription_activated`; `raised` is whether it raised. */
  method HandleActivated(customers: map<string, User>, e: SubscriptionEntity, today: CivilDate)
    returns (raised: bool)
    modifies Customer(customers, e.customerId)
    // A missing customer id or an invalid note plan raises; an unknown customer is ignored;
    // neither changes anything.
    ensures raised <==> !Present(e.customerId)
                        || (e.customerId.value in customers && ParsePlan(Lower(e.notePlan)).None?)
    ensures Present(e.customerId) && e.customerId.value in customers ==>
              var u := customers[e.customerId.value];
              u.Snapshot() == if raised then old(u.Snapshot())
                              else Activation(old(u.Snapshot()), ParsePlan(Lower(e.notePlan)).value, e.planId,
                                              e.periodEnd, today).(subscriptionId := Some(e.id))
  {
    if !Present(e.customerId) {
      return true;
    }
    if e.customerId.value !in customers {
      return false;
    }
    var u := customers[e.customerId.value];
    var plan := ParsePlan(Lower(e.notePlan));
    if plan.None? {
      return true;
    }
    Activate(u, plan.value, e.planId, e.periodEnd, today);
    u.subscriptionId := Some(e.id);
    raised := false;
  }

  /** `handle_subscription_charged`. */
  method HandleCharged(customers: map<string, User>, e: SubscriptionEntity)
    modifies Customer(customers, e.customerId)
    ensures Present(e.customerId) && e.customerId.value in customers ==>
              var u := customers[e.customerId.value];
              u.Snapshot() == Charged(old(u.Snapshot()), e.periodEnd)
  {
    if Present(e.customerId) && e.customerId.value in customers {
      var u := customers[e.customerId.value];
      if e.periodEnd.Some? {
        u.expiresAt := e.periodEnd;
        u.usageResetAt := e.periodEnd;
      }
    }
  }

  /** `handle_subscription_updated`. */
  method HandleUpdated(customers: map<string, User>, e: SubscriptionEntity)
    modifies Customer(customers, e.customerId)
    ensures Present(e.customerId) && e.customerId.value in customers ==>
              var u := customers[e.customerId.value];
              u.Snapshot() == Updated(old(u.Snapshot()), e.periodEnd)
  {
    if Present(e.customerId) && e.customerId.value in customers {
      var u := customers[e.customerId.value];
      if e.periodEnd.Some? {
        u.expiresAt := e.periodEnd;
      }
    }
  }

  /** `handle_subscription_cancelled`. */
  method HandleCancelled(customers: map<string, User>, e: SubscriptionEntity)
    modifies Customer(customers, e.customerId)
    ensures Present(e.customerId) && e.customerId.value in customers ==>
              var u := customers[e.customerId.value];
              u.Snapshot() == Cancelled(old(u.Snapshot()))
  {
    if Present(e.customerId) && e.customerId.value in customers {
      var u := customers[e.customerId.value];
      u.tier := Free;
      u.subscriptionId := None;
      u.planId := None;
      u.expiresAt := None;
      u.monthlyHoursLimit := None;
      u.monthlyHoursUsed := 0.0;
    }
  }

  /** `handle_subscription_halted` at time `now`. */
  method HandleHalted(customers: map<string, User>, e: SubscriptionEntity, now: Instant)
    modifies Customer(customers, e.customerId)
    ensures Present(e.customerId) && e.customerId.value in customers ==>
              var u := customers[e.customerId.value];
              u.Snapshot() == Halted(old(u.Snapshot()), now)
  {
    if Present(e.customerId) && e.customerId.value in customers {
      var u := customers[e.customerId.value];
      u.expiresAt := Some(AddMicros(now, -Days(1)));
    }
  }

  /** A decoded webhook body: its `event` field and, when the path
      `payload.subscription.entity` exists, that entity. */
  datatype Event = Event(eventType: Option<string>, entity: Option<SubscriptionEntity>)

  /** The webhook's answer once the request is accepted: the provider is always told that the
      event arrived, with an error status when handling it raised. */
  datatype Ack = Received | ProcessingError

  /** The event kinds the webhook handles. */
  datatype EventKind = ActivatedEvent | ChargedEvent | UpdatedEvent | CancelledEvent | HaltedEvent

  function KindOf(eventType: Option<string>): Option<EventKind> {
    if eventType == Some("subscription.activated") then Some(ActivatedEvent)
    else if eventType == Some("subscription.charged") then Some(ChargedEvent)
    else if eventType == Some("subscription.updated") then Some(UpdatedEvent)
    else if eventType == Some("subscription.cancelled") then Some(CancelledEvent)
    else if eventType == Some("subscription.halted") then Some(HaltedEvent)
    else None
  }

  /** The user an accepted event may change. */
  function Target(customers: map<string, User>, event: Option<Event>): set<User> {
    if event.Some? && event.value.entity.Some? then Customer(customers, event.value.entity.value.customerId) else {}
  }

  /** The request checks of `razorpay_webhook`, in their order. */
  function WebhookRefusal(secret: string, signature: Option<string>, signatureValid: bool, event: Option<Event>)
    : (refusal: Option<HttpError>)
    ensures refusal == None <==> 10 <= |secret| && Present(signature) && signatureValid && event.Some?
    ensures |secret| < 10 ==> refusal == Some(HttpError(ServiceUnavailable, "Webhook secret not configured"))
  {
    if secret == "" || |secret| < 10 then Some(HttpError(ServiceUnavailable, "Webhook secret not configured"))
    else if !Present(signature) then Some(HttpError(BadRequest, "Missing X-Razorpay-Signature header"))
    else if !signatureValid then Some(HttpError(BadRequest, "Invalid signature"))
    else if event.None? then Some(HttpError(BadRequest, "Invalid JSON payload"))
    else None
  }

  /** `razorpay_webhook`: `signatureValid` is the outcome of the signature check and
      `event` that of decoding the body (None when it is not JSON). */
  method Webhook(customers: map<string, User>, secret: string, signature: Option<string>, signatureValid: bool,
                 event: Option<Event>, today: CivilDate, now: Instant)
    returns (r: Result<Ack, HttpError>)
    modifies Target(customers, event)
    // A refused request answers the first failed check and changes no account.
    ensures WebhookRefusal(secret, signature, signatureValid, event).Some? ==>
              r == Err(WebhookRefusal(secret, signature, signatureValid, event).value)
              && forall u :: u in Target(customers, event) ==> u.Snapshot() == old(u.Snapshot())
    ensures WebhookRefusal(secret, signature, signatureValid, event).None? ==> r.Ok?
    // An event of a handled kind without an entity is an error; other kinds are
    // acknowledged without a change.
    ensures r.Ok? && KindOf(event.value.eventType).Some? && event.value.entity.None? ==> r.value == ProcessingError
    ensures r.Ok? && KindOf(event.value.eventType).None? ==> r.value == Received
    // A handled event whose customer id is missing or unknown changes no account: only an
    // activation without a customer id raises, and is answered with the error status.
    ensures r.Ok? && KindOf(event.value.eventType).Some? && event.value.entity.Some?
            && !(Present(event.value.entity.value.customerId)
                 && event.value.entity.value.customerId.value in customers) ==>
              r.value == if KindOf(event.value.eventType) == Some(ActivatedEvent)
                            && !Present(event.value.entity.value.customerId)
                         then ProcessingError else Received
    // Each handled event brings its customer to the state of its transition.
    ensures r.Ok? && event.value.entity.Some? ==>
              var e := event.value.entity.value;
              Present(e.customerId) && e.customerId.value in customers ==>
                var u := customers[e.customerId.value];
                var a := old(u.Snapshot());
                match KindOf(event.value.eventType)
                case None => u.Snapshot() == a
                case Some(ActivatedEvent) =>
                  (r.value == ProcessingError <==> ParsePlan(Lower(e.notePlan)).None?)
                  && u.Snapshot() == if r.value == ProcessingError then a
                                     else Activation(a, ParsePlan(Lower(e.notePlan)).value, e.planId, e.periodEnd,
                                                     today).(subscriptionId := Some(e.id))
                case Some(ChargedEvent) => r.value == Received && u.Snapshot() == Charged(a, e.periodEnd)
                case Some(UpdatedEvent) => r.value == Received && u.Snapshot() == Updated(a, e.periodEnd)
                case Some(CancelledEvent) => r.value == Received && u.Snapshot() == Cancelled(a)
                case Some(HaltedEvent) => r.value == Received && u.Snapshot() == Halted(a, now)
  {
    var refusal := WebhookRefusal(secret, signature, signatureValid, event);
    if refusal.Some? {
      return Err(refusal.value);
    }
    var ev := event.value;
    var kind := KindOf(ev.eventType);
    if kind.None? {
      return Ok(Received);
    }
    if ev.entity.None? {
      return Ok(ProcessingError);
    }
    var e := ev.entity.value;
    match kind.value {
      case ActivatedEvent =>
        var raised := HandleActivated(customers, e, today);
        r := if raised then Ok(ProcessingError) else Ok(Received);
      case ChargedEvent =>
        HandleCharged(customers, e);
        r := Ok(Received);
      case UpdatedEvent =>
        HandleUpdated(customers, e);
        r := Ok(Received);
      case CancelledEvent =>
        HandleCancelled(customers, e);
        r := Ok(Received);
      case HaltedEvent =>
        HandleHalted(customers, e, now);
        r := Ok(Received);
    }
  }

  const NoSubscription := "No active subscription found. Please subscribe first."
  const SamePlan := "You are already on this plan"

  /** The checks of `change_plan` before any provider call, in their order. */
  function ChangePlanChecks(user: Account, rawPlan: string, rawInterval: string): (r: Result<(Plan, Interval), HttpError>)
    ensures !Present(user.subscriptionId) ==> r == Err(HttpError(BadRequest, NoSubscription))
    ensures Present(user.subscriptionId) && ValidatePlan(rawPlan).Err? ==> r == Err(ValidatePlan(rawPlan).error)
    ensures Present(user.subscriptionId) && ValidatePlan(rawPlan).Ok? && ValidateInterval(rawInterval).Err? ==>
              r == Err(ValidateInterval(rawInterval).error)
    // The new plan must differ from the current tier.
    ensures Present(user.subscriptionId) && ValidatePlan(rawPlan).Ok? && ValidateInterval(rawInterval).Ok? ==>
              r == if PlanTier(ValidatePlan(rawPlan).value) == user.tier then Err(HttpError(BadRequest, SamePlan))
                   else Ok((ValidatePlan(rawPlan).value, ValidateInterval(rawInterval).value))
  {
    if !Present(user.subscriptionId) then Err(HttpError(BadRequest, NoSubscription))
    else if ValidatePlan(rawPlan).Err? then Err(ValidatePlan(rawPlan).error)
    else if ValidateInterval(rawInterval).Err? then Err(ValidateInterval(rawInterval).error)
    else if TierValue(user.tier) == PlanKey(ValidatePlan(rawPlan).value) then Err(HttpError(BadRequest, SamePlan))
    else Ok((ValidatePlan(rawPlan).value, ValidateInterval(rawInterval).value))
  }

  /** The subscription the provider creates: its id and period end. */
  datatype CreatedSubscription = CreatedSubscription(id: string, periodEnd: Option<Instant>)

  datatype ChangeInfo = ChangeInfo(planName: string, newPlan: string, monthlyHoursLimit: real, subscriptionId: string)

  const ChangePrefix := "Error changing plan: "

  /** The account after a plan change: the new tier and hours, the new subscription and plan,
      and the new period end as expiry; usage and reset time are kept. */
  function PlanChanged(a: Account, p: Plan, i: Interval, s: CreatedSubscription): (b: Account)
    ensures b.tier == PlanTier(p) && b.monthlyHoursLimit == Some(PlanHours(p))
    ensures b.subscriptionId == Some(s.id) && b.planId == Some(PlanId(p, i))
    ensures b.monthlyHoursUsed == a.monthlyHoursUsed && b.usageResetAt == a.usageResetAt
    ensures b.expiresAt == if s.periodEnd.Some? then s.periodEnd else a.expiresAt
  {
    a.(tier := PlanTier(p), monthlyHoursLimit := Some(PlanHours(p)), subscriptionId := Some(s.id),
       planId := Some(PlanId(p, i)), expiresAt := if s.periodEnd.Some? then s.periodEnd else a.expiresAt)
  }

  /** `change_plan(new_plan, new_interval)`. `reply` is the provider's answer to cancelling
      the old subscription and creating `request`. */
  method ChangePlan(user: User, rawPlan: string, rawInterval: string,
                    reply: Result<CreatedSubscription, ProviderError>)
    returns (r: Result<ChangeInfo, HttpError>, request: Option<SubscriptionRequest>)
    modifies user
    ensures old(ChangePlanChecks(user.Snapshot(), rawPlan, rawInterval)).Err? ==>
              r == Err(old(ChangePlanChecks(user.Snapshot(), rawPlan, rawInterval)).error)
              && request == None && user.Snapshot() == old(user.Snapshot())
    ensures old(ChangePlanChecks(user.Snapshot(), rawPlan, rawInterval)).Ok? ==>
              var (p, i) := old(ChangePlanChecks(user.Snapshot(), rawPlan, rawInterval)).value;
              Switched(old(user.Snapshot()), p, i, reply, r, request, user.Snapshot())
  {
    var checks := ChangePlanChecks(user.Snapshot(), rawPlan, rawInterval);
    if checks.Err? {
      return Err(checks.error), None;
    }
    var (p, i) := checks.value;
    r, request := Switch(user, p, i, reply);
  }

  /** What a plan change does once its checks pass, from account `a` to account `b`: the new
      subscription is requested for the account's customer, and only a created one changes
      the account. */
  ghost predicate Switched(a: Account, p: Plan, i: Interval, reply: Result<CreatedSubscription, ProviderError>,
                           r: Result<ChangeInfo, HttpError>, request: Option<SubscriptionRequest>, b: Account)
  {
    request == Some(RequestFor(p, i, a.customerId, a.id))
    && match reply
       case Err(e) => r == Err(ProviderResponse(e, ChangePrefix)) && b == a
       case Ok(s) => r == Ok(ChangeInfo(PlanDisplayName(p), PlanKey(p), PlanHours(p), s.id)) && b == PlanChanged(a, p, i, s)
  }

  /** The provider calls of `change_plan` after its checks. */
  method Switch(user: User, p: Plan, i: Interval, reply: Result<CreatedSubscription, ProviderError>)
    returns (r: Result<ChangeInfo, HttpError>, request: Option<SubscriptionRequest>)
    modifies user
    ensures Switched(old(user.Snapshot()), p, i, reply, r, request, user.Snapshot())
  {
    request := Some(RequestFor(p, i, user.customerId, user.id));
    if reply.Err? {
      return Err(ProviderResponse(reply.error, ChangePrefix)), request;
    }
    var s := reply.value;
    ghost var b := PlanChanged(user.Snapshot(), p, i, s);
    user.tier := PlanTier(p);
    user.monthlyHoursLimit := Some(PlanHours(p));
    user.subscriptionId := Some(s.id);
    user.planId := Some(PlanId(p, i));
    if s.periodEnd.Some? {
      user.expiresAt := s.periodEnd;
    }
    assert user.Snapshot() == b;
    r := Ok(ChangeInfo(PlanDisplayName(p), PlanKey(p), PlanHours(p), s.id));
  }

  /** A successful plan change always moves to a different tier, and a Basic/Pro switch keeps
      the account paid. */
  lemma PlanChangeSwitchesTier(a: Account, rawPlan: string, rawInterval: string, s: CreatedSubscription)
    requires ChangePlanChecks(a, rawPlan, rawInterval).Ok?
    ensures var (p, i) := ChangePlanChecks(a, rawPlan, rawInterval).value;
            var b := PlanChanged(a, p, i, s);
            b.tier != a.tier && b.tier != Free && b.subscriptionId == Some(s.id)
  {
  }

  /** The subscription the provider reports to `verify_and_activate_subscription`. */
  datatype FetchedSubscription = FetchedSubscription(status: Option<string>, notePlan: string, planId: Option<string>,
                                                     periodEnd: Option<Instant>)

  datatype VerifyInfo =
    | Activated(tier: Tier, hoursLimit: real)                      // "Subscription activated successfully"
    | AlreadyActive(tier: Tier, monthlyHoursLimit: Option<real>) // "Subscription already active"
    | NotActive(status: Option<string>)                          // success False, "Payment may still be processing."

  const NoSubscriptionId := "No subscription ID found. Please create a subscription first."
  const VerifyPrefix := "Error verifying subscription: "

  /** Whether a user still needs activation: FREE, or no (or a zero) monthly limit. */
  predicate NeedsActivation(a: Account) {
    a.tier == Free || a.monthlyHoursLimit.None? || a.monthlyHoursLimit.value == 0.0
  }

  /** `verify_and_activate_subscription` as a decision: the answer and the new account.
      An invalid note plan is answered with 400 (see `VerifyAsWritten`). */
  function Verify(a: Account, fetched: Result<FetchedSubscription, ProviderError>, today: CivilDate): (r: Result<(VerifyInfo, Account), HttpError>)
    ensures !Present(a.subscriptionId) ==> r == Err(HttpError(BadRequest, NoSubscriptionId))
    ensures Present(a.subscriptionId) && fetched.Err? ==> r == Err(ProviderResponse(fetched.error, VerifyPrefix))
    // Only an active subscription of an account that still needs it is activated; every
    // other answer leaves the account as it was.
    ensures r.Ok? && r.value.0.Activated? ==>
              fetched.Ok? && fetched.value.status == Some("active") && NeedsActivation(a)
              && ParsePlan(Lower(fetched.value.notePlan)).Some?
              && r.value.1 == Activation(a, ParsePlan(Lower(fetched.value.notePlan)).value, fetched.value.planId,
                                         fetched.value.periodEnd, today)
              && r.value.0 == Activated(r.value.1.tier, r.value.1.monthlyHoursLimit.value)
    ensures r.Ok? && !r.value.0.Activated? ==> r.value.1 == a
    ensures r.Ok? && r.value.0.AlreadyActive? <==>
              Present(a.subscriptionId) && fetched.Ok? && fetched.value.status == Some("active") && !NeedsActivation(a)
    ensures r.Ok? && r.value.0.NotActive? <==>
              Present(a.subscriptionId) && fetched.Ok? && fetched.value.status != Some("active")
    ensures Present(a.subscriptionId) && fetched.Ok? && fetched.value.status == Some("active") && NeedsActivation(a)
            && ParsePlan(Lower(fetched.value.notePlan)).None? ==>
              r == Err(HttpError(BadRequest, "Invalid plan configuration: " + Lower(fetched.value.notePlan)))
  {
    if !Present(a.subscriptionId) then Err(HttpError(BadRequest, NoSubscriptionId))
    else if fetched.Err? then Err(ProviderResponse(fetched.error, VerifyPrefix))
    else
      var f := fetched.value;
      if f.status != Some("active") then Ok((NotActive(f.status), a))
      else if !NeedsActivation(a) then Ok((AlreadyActive(a.tier, a.monthlyHoursLimit), a))
      else
        var plan := Lower(f.notePlan);
        match ParsePlan(plan)
        case None => Err(HttpError(BadRequest, "Invalid plan configuration: " + plan))
        case Some(p) =>
          var b := Activation(a, p, f.planId, f.periodEnd, today);
          Ok((Activated(b.tier, b.monthlyHoursLimit.value), b))
  }

  /** Activation is one-shot: verifying again right after an activation reports the
      subscription as already active and changes nothing. */
  lemma VerifyOnce(a: Account, fetched: Result<FetchedSubscription, ProviderError>, today: CivilDate)
    requires Verify(a, fetched, today).Ok?
    requires Verify(a, fetched, today).value.0.Activated?
    ensures var b := Verify(a, fetched, today).value.1;
            Verify(b, fetched, today) == Ok((AlreadyActive(b.tier, b.monthlyHoursLimit), b))
  {
  }

  /** The code as written: the 400 for an invalid note plan is raised inside the `try`
      whose generic handler turns every exception into a 500 with the exception's text,
      which for an HTTP exception is its status and detail. */
  function VerifyAsWritten(a: Account, fetched: Result<FetchedSubscription, ProviderError>, today: CivilDate): (r: Result<(VerifyInfo, Account), HttpError>)
    ensures r.Err? && r.error.status == BadRequest ==> r.error.detail == NoSubscriptionId || fetched.Err?
  {
    var corrected := Verify(a, fetched, today);
    if corrected.Err? && Present(a.subscriptionId) && fetched.Ok? then
      Err(HttpError(InternalServerError, VerifyPrefix + "400: " + corrected.error.detail))
    else corrected
  }

  /** The input that shows it: a FREE user whose active subscription carries a note plan
      that names no plan, such as "enterprise", gets 500 instead of the intended 400. */
  lemma InvalidPlanAnswered500(a: Account, f: FetchedSubscription, today: CivilDate)
    requires a.tier == Free && Present(a.subscriptionId)
    requires f.status == Some("active") && ParsePlan(Lower(f.notePlan)).None?
    ensures VerifyAsWritten(a, Ok(f), today).error.status == InternalServerError
    ensures Verify(a, Ok(f), today) == Err(HttpError(BadRequest, "Invalid plan configuration: " + Lower(f.notePlan)))
  {
  }

  /** `verify_and_activate_subscription`, with the provider's reply `fetched`. */
  method VerifyAndActivate(user: User, fetched: Result<FetchedSubscription, ProviderError>, today: CivilDate)
    returns (r: Result<VerifyInfo, HttpError>)
    modifies user
    ensures var v := old(Verify(user.Snapshot(), fetched, today));
            match v
            case Err(e) => r == Err(e) && user.Snapshot() == old(user.Snapshot())
            case Ok((info, b)) => r == Ok(info) && user.Snapshot() == b
  {
    var v := Verify(user.Snapshot(), fetched, today);
    if v.Err? {
      return Err(v.error);
    }
    var (info, b) := v.value;
    if info.Activated? {
      var f := fetched.value;
      Activate(user, ParsePlan(Lower(f.notePlan)).value, f.planId, f.periodEnd, today);
    }
    r := Ok(info);
  }
}
