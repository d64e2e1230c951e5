/**
 * The email-only free trial (`start_trial`, `get_trial_usage`, `check_trial_eligibility`):
 * one trial per email address, never for an address that is already registered, and ten
 * minutes of transcription per trial. The users table is a set of user objects.
 */
module Trials {
  import opened Wrappers
  import opened PyStr
  import opened Clock
  import opened Http
  import opened Accounts
  import opened Security
  import TrialLimits

  /** The lifetime of the trial session token, in hours. */
  const TrialTokenExpireHours: int := 24

  const TrialUsedMessage := "This email has already been used for a free trial. Please subscribe to continue using the service."
  const RegisteredMessage := "This email is already registered. Please log in instead."

  /** `email.lower().strip()`. */
  function Normalize(email: string): string {
    Strip(Lower(email))
  }

  class UserStore {
    var users: set<User>

    constructor (users: set<User>)
      ensures this.users == users
    {
      this.users := users;
    }

    /** Some user's trial email is `e`. */
    predicate TrialEmailUsed(e: string)
      reads this, users
    {
      exists u :: u in users && u.trialEmail == Some(e)
    }

    /** Some user's login email is `e`. */
    predicate EmailRegistered(e: string)
      reads this, users
    {
      exists u :: u in users && u.email == Some(e)
    }
  }

  /** Why `start_trial` refuses an address, in the order the checks run; None when a trial
      may start. */
  function TrialRefusal(store: UserStore, email: string): (refusal: Option<HttpError>)
    reads store, store.users
    ensures var e := Normalize(email);
            refusal == None <==> e != [] && '@' in e && !store.TrialEmailUsed(e) && !store.EmailRegistered(e)
    ensures var e := Normalize(email);
            (e == [] || '@' !in e) ==> refusal == Some(HttpError(BadRequest, "Invalid email address"))
    // An earlier trial of the address is reported before its registration.
    ensures var e := Normalize(email);
            e != [] && '@' in e && store.TrialEmailUsed(e) ==> refusal == Some(HttpError(BadRequest, TrialUsedMessage))
    ensures var e := Normalize(email);
            e != [] && '@' in e && !store.TrialEmailUsed(e) && store.EmailRegistered(e) ==>
              refusal == Some(HttpError(BadRequest, RegisteredMessage))
  {
    var e := Normalize(email);
    if e == [] || '@' !in e then Some(HttpError(BadRequest, "Invalid email address"))
    else if store.TrialEmailUsed(e) then Some(HttpError(BadRequest, TrialUsedMessage))
    else if store.EmailRegistered(e) then Some(HttpError(BadRequest, RegisteredMessage))
    else None
  }

  /** The columns of the trial account created for address `e`. */
  function TrialAccount(id: string, e: string): Account {
    Account(id, None, None, None, true, false, true, Some(e), 0.0, Free, None, None, None, None, None, 0.0, None, None)
  }

  /** `db.add` of a new trial account. */
  method AddTrialUser(store: UserStore, id: string, e: string) returns (created: User)
    modifies store
    ensures fresh(created) && store.users == old(store.users) + {created}
    ensures created.Snapshot() == TrialAccount(id, e)
  {
    created := new User.Trial(id, e);
    store.users := store.users + {created};
  }

  datatype TrialStarted = TrialStarted(token: AccessToken, minutesRemaining: real)

  /** `start_trial(email)`; `newId` is the id the new row receives, `now` the clock and
      `secretKey` the configured signing key. */
  method StartTrial(store: UserStore, email: string, newId: string, now: Instant, secretKey: string)
    returns (r: Result<TrialStarted, HttpError>, created: User?)
    modifies store
    // A refused address creates nothing.
    ensures old(TrialRefusal(store, email)).Some? ==>
              r == Err(old(TrialRefusal(store, email)).value) && created == null && store.users == old(store.users)
    // An accepted address gets a new trial account tracked by that address.
    ensures old(TrialRefusal(store, email)).None? ==>
              created != null && fresh(created) && store.users == old(store.users) + {created}
              && created.Snapshot() == TrialAccount(newId, Normalize(email))
    // The account is committed before the token is signed, so a signing failure still
    // leaves it in place.
    ensures created != null ==>
              var token := CreateAccessToken(Claims(newId, Some(Normalize(email)), true),
                                             Some(Hours(TrialTokenExpireHours)), now, secretKey);
              r == if token.Ok? then Ok(TrialStarted(token.value, TrialLimits.TrialMinutesLimit))
                   else Err(HttpError(InternalServerError, "Failed to start trial. Please try again."))
  {
    var refusal := TrialRefusal(store, email);
    if refusal.Some? {
      return Err(refusal.value), null;
    }
    var e := Normalize(email);
    created := AddTrialUser(store, newId, e);
    var token := CreateAccessToken(Claims(newId, Some(e), true), Some(Hours(TrialTokenExpireHours)), now, secretKey);
    if token.Err? {
      return Err(HttpError(InternalServerError, "Failed to start trial. Please try again.")), created;
    }
    return Ok(TrialStarted(token.value, TrialLimits.TrialMinutesLimit)), created;
  }

  datatype UpgradeMessage =
    | TrialEnded             // "Your free trial has ended. Subscribe to continue with unlimited recording!"
    | MinutesLeft(minutes: real) // "Only {x:.1f} minutes left! Subscribe for unlimited recording."

  datatype TrialUsage = TrialUsage(email: Option<string>, minutesUsed: real, minutesRemaining: real,
                                   limit: real, expired: bool, upgradeMessage: Option<UpgradeMessage>)

  /** `get_trial_usage(current_user)`. */
  function GetTrialUsage(user: User): (r: Result<TrialUsage, HttpError>)
    reads user
    ensures r.Err? <==> !user.isTrialUser
    ensures r.Err? ==> r.error == HttpError(BadRequest, "This endpoint is only for trial users")
    ensures r.Ok? ==>
              var u := r.value;
              u.email == user.trialEmail && u.minutesUsed == user.trialMinutesUsed
              && u.limit == TrialLimits.TrialMinutesLimit
              && 0.0 <= u.minutesRemaining
              && (u.minutesRemaining == TrialLimits.TrialMinutesLimit - user.trialMinutesUsed || u.minutesRemaining == 0.0)
              // Expired exactly when the ten minutes are used up, which is when none remain.
              && (u.expired <==> user.trialMinutesUsed >= TrialLimits.TrialMinutesLimit)
              && (u.expired <==> u.minutesRemaining == 0.0)
              // The ended text comes before the running-low text.
              && (u.expired ==> u.upgradeMessage == Some(TrialEnded))
              && (!u.expired ==> u.upgradeMessage == if u.minutesRemaining < 2.0 then Some(MinutesLeft(u.minutesRemaining)) else None)
  {
    if !user.isTrialUser then Err(HttpError(BadRequest, "This endpoint is only for trial users"))
    else
      var used := user.trialMinutesUsed;
      var remaining := if TrialLimits.TrialMinutesLimit - used < 0.0 then 0.0 else TrialLimits.TrialMinutesLimit - used;
      var expired := used >= TrialLimits.TrialMinutesLimit;
      var message := if expired then Some(TrialEnded)
                     else if remaining < 2.0 then Some(MinutesLeft(remaining))
                     else None;
      Ok(TrialUsage(user.trialEmail, used, remaining, TrialLimits.TrialMinutesLimit, expired, message))
  }

  datatype Eligibility =
    | Eligible(trialMinutes: real)
    | AlreadyTrialed   // "Email already used for trial"
    | AlreadyRegistered // "Email already registered"

  /** `check_trial_eligibility(email)`: a read-only decision; unlike `start_trial` it does not
      check the address's form. */
  function CheckTrialEligibility(store: UserStore, email: string): (r: Eligibility)
    reads store, store.users
    ensures r.Eligible? <==> !store.TrialEmailUsed(Normalize(email)) && !store.EmailRegistered(Normalize(email))
    ensures r.Eligible? ==> r.trialMinutes == TrialLimits.TrialMinutesLimit
    ensures store.TrialEmailUsed(Normalize(email)) ==> r == AlreadyTrialed
    ensures !store.TrialEmailUsed(Normalize(email)) && store.EmailRegistered(Normalize(email)) ==> r == AlreadyRegistered
  {
    var e := Normalize(email);
    if store.TrialEmailUsed(e) then AlreadyTrialed
    else if store.EmailRegistered(e) then AlreadyRegistered
    else Eligible(TrialLimits.TrialMinutesLimit)
  }
}
