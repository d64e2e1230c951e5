/**
 * The helpers and verification-code flows of the authentication endpoints
 * (`app/api/auth.py`): the in-memory sliding-window rate limiter, the email syntax check,
 * input sanitising, and sending, resending and checking emailed verification codes against
 * the `email_verifications` table. The clock, the client address, the random draw and the
 * mail service's outcome are parameters.
 */
module Auth {
  import opened Wrappers
  import opened Clock
  import opened Http
  import opened PyStr
  import opened EmailVerifications

  // ---------------------------------------------------------------------------------------
  // Rate limiting (`check_rate_limit`)
  // ---------------------------------------------------------------------------------------

  /** An attempt at `attempt` still counts at `now` for a window of `windowMinutes`. */
  predicate InWindow(attempt: Instant, now: Instant, windowMinutes: int) {
    Micros(now) - Micros(attempt) < Minutes(windowMinutes)
  }

  /** The attempts of `attempts` that still count at `now`, in their order. */
  function Recent(attempts: seq<Instant>, now: Instant, windowMinutes: int): (kept: seq<Instant>)
    ensures |kept| <= |attempts|
    ensures forall a :: a in kept <==> a in attempts && InWindow(a, now, windowMinutes)
  {
    if attempts == [] then []
    else
      var last := attempts[|attempts| - 1];
      assert attempts == attempts[..|attempts| - 1] + [last];
      Recent(attempts[..|attempts| - 1], now, windowMinutes) + (if InWindow(last, now, windowMinutes) then [last] else [])
  }

  /** One call of the limiter on the recorded attempts `history` of an identifier: whether it
      is allowed, and the attempts recorded afterwards. */
  function Attempt(history: seq<Instant>, now: Instant, maxAttempts: int, windowMinutes: int)
    : (r: (bool, seq<Instant>))
    // Allowed exactly when fewer than `maxAttempts` recorded attempts are within the window.
    ensures r.0 <==> |Recent(history, now, windowMinutes)| < maxAttempts
    ensures r.0 ==> |r.1| <= maxAttempts
    // Old attempts are dropped, and only an allowed call is recorded.
    ensures forall a :: a in r.1 <==> (a in history && InWindow(a, now, windowMinutes)) || (r.0 && a == now)
  {
    var kept := Recent(history, now, windowMinutes);
    if |kept| >= maxAttempts then (false, kept) else (true, kept + [now])
  }

  function History(storage: map<string, seq<Instant>>, identifier: string): seq<Instant> {
    if identifier in storage then storage[identifier] else []
  }

  /** The module-level `_rate_limit_storage` and the function that consults it. */
  class RateLimiter {
    var storage: map<string, seq<Instant>>

    constructor ()
      ensures storage == map[]
    {
      storage := map[];
    }

    /** `check_rate_limit(identifier, max_attempts, window_minutes)` at time `now`. */
    method CheckRateLimit(identifier: string, maxAttempts: int, windowMinutes: int, now: Instant)
      returns (allowed: bool)
      modifies this
      ensures identifier in storage
      ensures (allowed, storage[identifier]) == Attempt(History(old(storage), identifier), now, maxAttempts, windowMinutes)
      ensures storage == old(storage)[identifier := storage[identifier]]
    {
      if identifier !in storage {
        storage := storage[identifier := []];
      }
      storage := storage[identifier := Recent(storage[identifier], now, windowMinutes)];
      if |storage[identifier]| >= maxAttempts {
        return false;
      }
      storage := storage[identifier := storage[identifier] + [now]];
      return true;
    }
  }

  /** The times of the allowed calls among `times` that still count at `now`. */
  function AllowedWithin(times: seq<Instant>, allowed: seq<bool>, now: Instant, windowMinutes: int): seq<Instant>
    requires |times| == |allowed|
  {
    if times == [] then []
    else
      var n := |times| - 1;
      AllowedWithin(times[..n], allowed[..n], now, windowMinutes)
      + (if allowed[n] && InWindow(times[n], now, windowMinutes) then [times[n]] else [])
  }

  /** Consecutive calls of the limiter for one identifier at the given times, starting from no
      record: which calls are allowed, and the record left. */
  function Run(times: seq<Instant>, maxAttempts: int, windowMinutes: int): (r: (seq<bool>, seq<Instant>))
    ensures |r.0| == |times|
  {
    if times == [] then ([], [])
    else
      var n := |times| - 1;
      var before := Run(times[..n], maxAttempts, windowMinutes);
      var step := Attempt(before.1, times[n], maxAttempts, windowMinutes);
      (before.0 + [step.0], step.1)
  }

  predicate Chronological(times: seq<Instant>) {
    forall i, j :: 0 <= i < j < |times| ==> AtMost(times[i], times[j])
  }

  lemma {:induction false} RecentAppend(a: seq<Instant>, b: seq<Instant>, now: Instant, windowMinutes: int)
    ensures Recent(a + b, now, windowMinutes) == Recent(a, now, windowMinutes) + Recent(b, now, windowMinutes)
    decreases |b|
  {
    if b != [] {
      var n := |b| - 1;
      assert (a + b)[..|a + b| - 1] == a + b[..n];
      RecentAppend(a, b[..n], now, windowMinutes);
    } else {
      assert a + b == a;
    }
  }

  /** Filtering the record of a past time again at a later time is filtering at the later
      time: an attempt out of the window stays out. */
  lemma {:induction false} RecentOfAllowed(times: seq<Instant>, allowed: seq<bool>, t0: Instant, t: Instant, windowMinutes: int)
    requires |times| == |allowed| && AtMost(t0, t)
    ensures Recent(AllowedWithin(times, allowed, t0, windowMinutes), t, windowMinutes)
            == AllowedWithin(times, allowed, t, windowMinutes)
    decreases |times|
  {
    if times != [] {
      var n := |times| - 1;
      var single := if allowed[n] && InWindow(times[n], t0, windowMinutes) then [times[n]] else [];
      RecentAppend(AllowedWithin(times[..n], allowed[..n], t0, windowMinutes), single, t, windowMinutes);
      RecentOfAllowed(times[..n], allowed[..n], t0, t, windowMinutes);
      if single != [] {
        assert single[..0] == [];
      }
    }
  }

  /** The guarantee of the limiter for calls in chronological order with a positive window:
      the record always holds exactly the allowed calls still in the window; at most
      `maxAttempts` allowed calls fall in any window ending at a call; and a call is refused
      only when `maxAttempts` allowed calls already fall in its window. */
  lemma {:induction false} RateLimitHolds(times: seq<Instant>, maxAttempts: int, windowMinutes: int)
    requires Chronological(times) && windowMinutes > 0 && maxAttempts >= 0
    ensures times != [] ==>
              var n := |times| - 1;
              var (allowed, record) := Run(times, maxAttempts, windowMinutes);
              record == AllowedWithin(times, allowed, times[n], windowMinutes)
              && |AllowedWithin(times, allowed, times[n], windowMinutes)| <= maxAttempts
              && (allowed[n] <==> |AllowedWithin(times[..n], allowed[..n], times[n], windowMinutes)| < maxAttempts)
    ensures |Run(times, maxAttempts, windowMinutes).1| <= maxAttempts
    decreases |times|
  {
    if times != [] {
      var n := |times| - 1;
      var t := times[n];
      var before := Run(times[..n], maxAttempts, windowMinutes);
      var (allowed, record) := Run(times, maxAttempts, windowMinutes);
      assert allowed[..n] == before.0;
      RateLimitHolds(times[..n], maxAttempts, windowMinutes);
      var kept := Recent(before.1, t, windowMinutes);
      if n > 0 {
        assert AtMost(times[n - 1], t);
        assert times[..n][n - 1] == times[n - 1];
        RecentOfAllowed(times[..n], before.0, times[n - 1], t, windowMinutes);
      }
      assert kept == AllowedWithin(times[..n], allowed[..n], t, windowMinutes);
      assert times[..n] == times[..|times| - 1];
      assert InWindow(t, t, windowMinutes);
    }
  }

  // ---------------------------------------------------------------------------------------
  // Email syntax (`validate_email`)
  // ---------------------------------------------------------------------------------------

  predicate AsciiAlnum(c: char) {
    IsAlpha(c) || IsDigit(c)
  }

  /** The class `[a-zA-Z0-9._%+-]` of the local part. */
  predicate LocalChar(c: char) {
    AsciiAlnum(c) || c == '.' || c == '_' || c == '%' || c == '+' || c == '-'
  }

  /** The class `[a-zA-Z0-9.-]` of the domain. */
  predicate DomainChar(c: char) {
    AsciiAlnum(c) || c == '.' || c == '-'
  }

  /** The text the pattern must cover: with `re.match`, `$` also matches just before a final
      newline, so one trailing newline is not part of it. */
  function Body(email: string): (b: string)
    ensures b == email || (email == b + ['\n'])
  {
    if email != [] && email[|email| - 1] == '\n' then email[..|email| - 1] else email
  }

  /** `b` is `local@domain.tld` with the '@' at `i` and the final dot at `j`: a non-empty
      local part, a non-empty domain, and at least two letters after the dot. */
  predicate SplitsAt(b: string, i: int, j: int) {
    0 < i && i + 1 < j && j + 2 < |b|
    && (forall k :: 0 <= k < i ==> LocalChar(b[k]))
    && b[i] == '@'
    && (forall k :: i < k < j ==> DomainChar(b[k]))
    && b[j] == '.'
    && (forall k :: j < k < |b| ==> IsAlpha(b[k]))
  }

  /** The pattern `^[a-zA-Z0-9._%+-]+@[a-zA-Z0-9.-]+\.[a-zA-Z]{2,}$` under `re.match`. */
  ghost predicate MatchesPattern(email: string) {
    exists i, j :: SplitsAt(Body(email), i, j)
  }

  /** The pattern test on the covered text, deciding the split at the first '@' and the last
      '.' after it. */
  function AcceptsBody(b: string): bool {
    match FirstIndexOf(b, '@')
    case None => false
    case Some(i) =>
      match LastIndexOf(b[i + 1..], '.')
      case None => false
      case Some(d) => SplitsAt(b, i, i + 1 + d)
  }

  /** `validate_email(email)` */
  function ValidateEmail(email: string): bool {
    AcceptsBody(Body(email))
  }

  /** A match can only split at the first '@' (the local part has none) and at the last '.'
      (the letters after it have none). */
  lemma SplitForced(b: string, i: int, j: int)
    requires SplitsAt(b, i, j)
    ensures FirstIndexOf(b, '@') == Some(i)
    ensures LastIndexOf(b[i + 1..], '.') == Some(j - i - 1)
  {
    assert !LocalChar('@') && !IsAlpha('.');
    var rest := b[i + 1..];
    assert rest[j - i - 1] == '.';
    assert forall k :: j - i - 1 < k < |rest| ==> rest[k] == b[i + 1 + k];
  }

  /** The hand-written decision agrees with the pattern, in both directions. */
  lemma ValidateEmailMatchesPattern(email: string)
    ensures ValidateEmail(email) <==> MatchesPattern(email)
  {
    var b := Body(email);
    if MatchesPattern(email) {
      var i, j :| SplitsAt(b, i, j);
      SplitForced(b, i, j);
    }
    if ValidateEmail(email) {
      var i := FirstIndexOf(b, '@').value;
      var d := LastIndexOf(b[i + 1..], '.').value;
      assert SplitsAt(b, i, i + 1 + d);
    }
  }

  /** One final newline is ignored, a second one is not. */
  lemma TrailingNewline(email: string)
    requires email == [] || email[|email| - 1] != '\n'
    ensures ValidateEmail(email + "\n") == ValidateEmail(email)
    ensures !ValidateEmail(email + "\n\n")
  {
    assert Body(email + "\n") == email;
    var b := Body(email + "\n\n");
    assert b == email + "\n";
    ValidateEmailMatchesPattern(email + "\n\n");
    assert forall i, j :: SplitsAt(b, i, j) ==> IsAlpha(b[|b| - 1]);
  }

  // ---------------------------------------------------------------------------------------
  // Input sanitising (`sanitize_input`)
  // ---------------------------------------------------------------------------------------

  const DefaultMaxLength: int := 255

  /** `sanitize_input(text, max_length)`: NUL characters removed, cut to `maxLength`
      characters, then stripped; a negative `maxLength` counts from the end, as in Python. */
  function SanitizeInput(text: string, maxLength: int): (r: string)
    ensures text == [] ==> r == []
    ensures forall k :: 0 <= k < |r| ==> r[k] != '\0'
    ensures 0 <= maxLength ==> |r| <= maxLength
    ensures r == [] || (!IsSpace(r[0]) && !IsSpace(r[|r| - 1]))
    // The result is the NUL-free text, cut to `maxLength`, with only surrounding whitespace dropped.
    ensures text != [] ==> TrimmedFrom(Prefix(RemoveChar(text, '\0'), maxLength), r)
  {
    if text == [] then []
    else
      var cut := Prefix(RemoveChar(text, '\0'), maxLength);
      assert forall k :: 0 <= k < |cut| ==> cut[k] != '\0';
      StripAvoids(cut, '\0');
      StripTrims(cut);
      Strip(cut)
  }

  /** The contract above determines the result: any text that is a piece of the cut text with
      only whitespace around it and none at its ends is the sanitised text. */
  lemma SanitizeDetermined(text: string, maxLength: int, r: string)
    requires text != []
    requires TrimmedFrom(Prefix(RemoveChar(text, '\0'), maxLength), r)
    requires r == [] || (!IsSpace(r[0]) && !IsSpace(r[|r| - 1]))
    ensures r == SanitizeInput(text, maxLength)
  {
    TrimmedUnique(Prefix(RemoveChar(text, '\0'), maxLength), r, SanitizeInput(text, maxLength));
  }

  /** Text that is already clean — no NUL, within the length, not padded — is returned as is,
      so sanitising twice is sanitising once. */
  lemma {:induction false} SanitizeClean(text: string, maxLength: int)
    requires forall k :: 0 <= k < |text| ==> text[k] != '\0'
    requires |text| <= maxLength
    requires text == [] || (!IsSpace(text[0]) && !IsSpace(text[|text| - 1]))
    ensures SanitizeInput(text, maxLength) == text
  {
    if text != [] {
      RemoveAbsent(text, '\0');
    }
  }

  lemma {:induction false} RemoveAbsent(s: string, c: char)
    requires forall k :: 0 <= k < |s| ==> s[k] != c
    ensures RemoveChar(s, c) == s
    decreases |s|
  {
    if s != [] {
      RemoveAbsent(s[1..], c);
    }
  }

  lemma SanitizeIdempotent(text: string, maxLength: int)
    requires 0 <= maxLength
    ensures SanitizeInput(SanitizeInput(text, maxLength), maxLength) == SanitizeInput(text, maxLength)
  {
    SanitizeClean(SanitizeInput(text, maxLength), maxLength);
  }

  /** The text is cut before it is stripped: when the kept part ends in whitespace the result
      is shorter than `maxLength`, even if non-blank text follows the cut. */
  lemma CutBeforeStrip(text: string, maxLength: int)
    requires forall k :: 0 <= k < |text| ==> text[k] != '\0'
    requires 0 < maxLength < |text| && IsSpace(text[maxLength - 1])
    ensures |SanitizeInput(text, maxLength)| < maxLength
  {
    RemoveAbsent(text, '\0');
    var cut := Prefix(text, maxLength);
    assert cut[maxLength - 1] == text[maxLength - 1];
    StripShortens(cut);
  }

  /** Stripping text that ends in whitespace shortens it. */
  lemma StripShortens(s: string)
    requires s != [] && IsSpace(s[|s| - 1])
    ensures |Strip(s)| < |s|
  {
    var left := LStrip(s);
    if |left| == |s| {
      assert left == s;
    }
  }

  // ---------------------------------------------------------------------------------------
  // Verification codes (`send_verification_code`, `verify_email_code`,
  // `resend_verification_code`)
  // ---------------------------------------------------------------------------------------

  /** A row of `email_verifications` as a value: its address, its code and its changing part. */
  datatype RowView = RowView(email: string, code: string, state: CodeState)

  /** At most one unused code per address. */
  predicate OneUnusedPerEmail(vs: seq<RowView>) {
    forall a, b :: 0 <= a < b < |vs| && vs[a].email == vs[b].email ==> vs[a].state.isUsed || vs[b].state.isUsed
  }

  /** The rows the lookup of `verify_email_code` selects: unused, with this address and code,
      by position. */
  function Matching(vs: seq<RowView>, email: string, code: string): (m: seq<nat>)
    ensures forall k {:trigger k in m} :: k in m <==> 0 <= k < |vs| && vs[k].email == email && vs[k].code == code && !vs[k].state.isUsed
    ensures forall x, y :: 0 <= x < y < |m| ==> m[x] < m[y]
    ensures forall x :: 0 <= x < |m| ==> m[x] < |vs|
  {
    if vs == [] then []
    else
      var n := |vs| - 1;
      var v := vs[n];
      assert forall k :: 0 <= k < n ==> vs[..n][k] == vs[k];
      Matching(vs[..n], email, code) + (if v.email == email && v.code == code && !v.state.isUsed then [n] else [])
  }

  lemma ElementIn<T>(m: seq<T>, x: nat)
    ensures x < |m| ==> m[x] in m
  {
  }

  /** While every address has at most one unused code, the lookup finds at most one row, so
      the "more than one row" failure of `scalar_one_or_none` cannot happen. */
  lemma AtMostOneMatch(vs: seq<RowView>, email: string, code: string)
    requires OneUnusedPerEmail(vs)
    ensures |Matching(vs, email, code)| <= 1
  {
    var m := Matching(vs, email, code);
    if |m| >= 2 {
      ElementIn(m, 0);
      ElementIn(m, 1);
      assert false;
    }
  }

  /** The invalidation loop of `send_verification_code`: every code of `email` is used. */
  function Invalidated(vs: seq<RowView>, email: string): (ws: seq<RowView>)
    ensures |ws| == |vs|
    ensures forall k :: 0 <= k < |vs| ==>
              ws[k] == vs[k].(state := vs[k].state.(isUsed := vs[k].state.isUsed || vs[k].email == email))
  {
    if vs == [] then []
    else
      var n := |vs| - 1;
      var v := vs[n];
      Invalidated(vs[..n], email) + [v.(state := v.state.(isUsed := v.state.isUsed || v.email == email))]
  }

  /** The row `create_verification` adds. */
  function FreshRow(email: string, draw: int, now: Instant): RowView
    requires CodeMin <= draw <= CodeMax
  {
    RowView(Lower(email), GenerateCode(draw), CodeState(None, false, AddMicros(now, Minutes(ExpiryMinutes))))
  }

  /** The table after the codes of the lower-cased `email` are invalidated and a fresh one added. */
  function AfterIssue(vs: seq<RowView>, email: string, draw: int, now: Instant): seq<RowView>
    requires CodeMin <= draw <= CodeMax
  {
    Invalidated(vs, Lower(email)) + [FreshRow(email, draw, now)]
  }

  /** Issuing keeps one unused code per address, and the new code, valid now, is then the only
      unused code of its address. */
  lemma IssueKeepsOneUnused(vs: seq<RowView>, email: string, draw: int, now: Instant)
    requires CodeMin <= draw <= CodeMax && OneUnusedPerEmail(vs)
    ensures var after := AfterIssue(vs, email, draw, now);
            OneUnusedPerEmail(after)
            && EmailVerifications.Valid(after[|vs|].state, now)
            && forall k :: 0 <= k < |vs| && after[k].email == after[|vs|].email ==> after[k].state.isUsed
  {
    LowerIdempotent(email);
  }

  /** `verify_email_code`'s use of the table: look the code up, check it is valid, verify it.
      The lookup's "more than one row" case, which the source turns into a server error, is
      kept as a refusal of its own. */
  function Redeemed(vs: seq<RowView>, email: string, code: string, now: Instant): (Result<nat, HttpError>, seq<RowView>) {
    var found := Matching(vs, email, code);
    if |found| == 0 then (Err(HttpError(BadRequest, InvalidCode)), vs)
    else if |found| > 1 then (Err(HttpError(InternalServerError, VerifyFailed)), vs)
    else
      var k := found[0];
      if !EmailVerifications.Valid(vs[k].state, now) then (Err(HttpError(BadRequest, CodeExpired)), vs)
      else (Ok(k), vs[k := vs[k].(state := Verified(vs[k].state, now).1)])
  }

  /** A failure changes nothing; a success uses up exactly the row found, which was the only
      unused match and valid now. */
  lemma RedeemedOutcome(vs: seq<RowView>, email: string, code: string, now: Instant)
    ensures var (r, after) := Redeemed(vs, email, code, now);
            (r.Err? ==> after == vs)
            && (r.Ok? ==> r.value < |vs| && Matching(vs, email, code) == [r.value]
                          && EmailVerifications.Valid(vs[r.value].state, now)
                          && after == vs[r.value := vs[r.value].(state := Verified(vs[r.value].state, now).1)])
  {
    var found := Matching(vs, email, code);
    if |found| == 1 {
      assert found == [found[0]];
    }
  }

  /** Using up a row keeps one unused code per address. */
  lemma UseKeepsOneUnused(vs: seq<RowView>, k: nat, state: CodeState)
    requires OneUnusedPerEmail(vs) && k < |vs| && state.isUsed
    ensures OneUnusedPerEmail(vs[k := vs[k].(state := state)])
  {
    var after := vs[k := vs[k].(state := state)];
    forall a, b | 0 <= a < b < |after| && after[a].email == after[b].email
      ensures after[a].state.isUsed || after[b].state.isUsed
    {
      if a != k && b != k {
        assert after[a] == vs[a] && after[b] == vs[b];
      }
    }
  }

  /** Once the only unused code of an address is used up, the lookup finds nothing. */
  lemma NoMatchAfterUse(vs: seq<RowView>, k: nat, state: CodeState, email: string, code: string)
    requires OneUnusedPerEmail(vs) && k < |vs| && vs[k].email == email && !vs[k].state.isUsed && state.isUsed
    ensures Matching(vs[k := vs[k].(state := state)], email, code) == []
  {
    var after := vs[k := vs[k].(state := state)];
    var m := Matching(after, email, code);
    if m != [] {
      ElementIn(m, 0);
      assert false;
    }
  }

  /** Under one unused code per address, the server-error case never arises, redeeming keeps
      the property, and a code that was just redeemed is refused as invalid if presented again. */
  lemma RedeemOnce(vs: seq<RowView>, email: string, code: string, now: Instant, later: Instant)
    requires OneUnusedPerEmail(vs)
    ensures var (r, after) := Redeemed(vs, email, code, now);
            OneUnusedPerEmail(after)
            && (r.Err? ==> r.error != HttpError(InternalServerError, VerifyFailed))
            && (r.Ok? ==> Redeemed(after, email, code, later) == (Err(HttpError(BadRequest, InvalidCode)), after))
  {
    AtMostOneMatch(vs, email, code);
    RedeemedOutcome(vs, email, code, now);
    var (r, after) := Redeemed(vs, email, code, now);
    if r.Ok? {
      var k := r.value;
      var state := Verified(vs[k].state, now).1;
      assert k in Matching(vs, email, code);
      UseKeepsOneUnused(vs, k, state);
      NoMatchAfterUse(vs, k, state, email, code);
    }
  }

  /** The `email_verifications` table. */
  class CodeTable {
    var rows: seq<RowView>

    ghost predicate Valid()
      reads this
    {
      OneUnusedPerEmail(rows)
    }

    constructor ()
      ensures rows == [] && Valid()
    {
      rows := [];
    }

    /** The loop that marks every unused code of `email` used. */
    method InvalidateUnused(email: string)
      modifies this
      ensures rows == Invalidated(old(rows), email)
    {
      var i := 0;
      while i < |rows|
        invariant 0 <= i <= |rows| && |rows| == |old(rows)|
        invariant forall k :: 0 <= k < i ==>
                    rows[k] == old(rows)[k].(state := old(rows)[k].state.(isUsed := old(rows)[k].state.isUsed || old(rows)[k].email == email))
        invariant forall k :: i <= k < |rows| ==> rows[k] == old(rows)[k]
      {
        var v := rows[i];
        if v.email == email && !v.state.isUsed {
          rows := rows[i := v.(state := v.state.(isUsed := true))];
        }
        i := i + 1;
      }
      assert forall k :: 0 <= k < |rows| ==> rows[k] == Invalidated(old(rows), email)[k];
    }

    /** The lookup of `verify_email_code` and `verify()` on the code found. */
    method Redeem(email: string, code: string, now: Instant) returns (r: Result<nat, HttpError>)
      modifies this
      ensures (r, rows) == Redeemed(old(rows), email, code, now)
    {
      var found := Matching(rows, email, code);
      if |found| == 0 {
        return Err(HttpError(BadRequest, InvalidCode));
      }
      if |found| > 1 {
        return Err(HttpError(InternalServerError, VerifyFailed));
      }
      var k := found[0];
      if !EmailVerifications.Valid(rows[k].state, now) {
        return Err(HttpError(BadRequest, CodeExpired));
      }
      var (ok, state) := Verified(rows[k].state, now);
      // `verify()` cannot fail right after `is_valid()` held.
      assert ok;
      rows := rows[k := rows[k].(state := state)];
      return Ok(k);
    }

    /** `create_verification` for an address after its older codes were invalidated. */
    method Issue(email: string, draw: int, now: Instant) returns (v: EmailVerification)
      requires CodeMin <= draw <= CodeMax
      modifies this
      ensures rows == AfterIssue(old(rows), email, draw, now)
      ensures v.expiresAt == AddMicros(now, Minutes(ExpiryMinutes))
    {
      InvalidateUnused(Lower(email));
      LowerIdempotent(email);
      v := new EmailVerification.Create(Lower(email), draw, now);
      rows := rows + [RowView(v.email, v.code, v.State())];
    }
  }

  /** The rate-limit key prefixes. */
  const VerifyIpPrefix := "verify:ip:"
  const VerifyEmailPrefix := "verify:email:"
  const ResendIpPrefix := "resend:ip:"
  const ResendEmailPrefix := "resend:email:"
  const VerifyCheckIpPrefix := "verify_check:ip:"

  const TooManyVerifyAttempts := "Too many verification attempts. Please try again later."
  const TooManyCodesForEmail := "Too many verification codes sent to this email. Please try again later."
  const AlreadyVerified := "Email is already verified"
  const SendEmailFailed := "Failed to send verification email. Please try again."
  const SendCodeFailed := "Failed to send verification code. Please try again."
  const CodeSent := "Verification code sent successfully. Please check your email."
  const InvalidCode := "Invalid or expired verification code"
  const CodeExpired := "Verification code has expired. Please request a new one."
  const VerifyFailed := "Failed to verify code. Please try again."
  const EmailVerifiedMessage := "Email verified successfully!"
  const TooManyResends := "Too many resend attempts. Please try again later."
  const TooManyResendsForEmail := "Too many verification codes sent. Please check your spam folder or try again later."

  /** What the mail service did with the code. */
  datatype Delivery = Delivered | NotDelivered | Raised

  datatype VerificationResponse = VerificationResponse(message: string, expiresInSeconds: Option<nat>)

  /** The client address used in rate-limit keys. */
  function ClientIp(client: Option<string>): string {
    if client.Some? then client.value else "unknown"
  }

  /** `max(0, int((expires_at - at).total_seconds()))`, on whole microseconds. */
  function ExpiresIn(expiresAt: Instant, at: Instant): (s: nat)
    ensures s * MicrosPerSecond <= if Micros(expiresAt) > Micros(at) then Micros(expiresAt) - Micros(at) else 0
    ensures Micros(expiresAt) - Micros(at) < (s + 1) * MicrosPerSecond
  {
    var d := Micros(expiresAt) - Micros(at);
    if d <= 0 then 0 else d / MicrosPerSecond
  }

  /** A response computed no earlier than the code's creation promises at most 15 minutes. */
  lemma ExpiresInAtMost15Minutes(v: EmailVerification, at: Instant)
    requires Micros(v.expiresAt) == Micros(v.createdAt) + Minutes(ExpiryMinutes)
    requires AtMost(v.createdAt, at)
    ensures ExpiresIn(v.expiresAt, at) <= 900
  {
  }

  /** Rate-limit keys with different prefixes never collide. */
  lemma KeysDiffer(p: string, q: string, x: string, y: string, k: nat)
    requires k < |p| && k < |q| && p[k] != q[k]
    ensures p + x != q + y
  {
    assert (p + x)[k] == p[k] && (q + y)[k] == q[k];
  }

  /** Two consecutive limiter checks, the second made only when the first admits the call:
      both decisions and the records left. */
  function TwoLimits(storage: map<string, seq<Instant>>, first: string, max1: int, window1: int,
                     second: string, max2: int, window2: int, now: Instant)
    : (r: (bool, bool, map<string, seq<Instant>>))
    // The first limit decides alone; the second is consulted, and counts the call, only when
    // the first admits it; no other identifier's record changes.
    ensures r.0 == Attempt(History(storage, first), now, max1, window1).0
    ensures History(r.2, first) == if r.0 && first == second then History(r.2, second)
                                   else Attempt(History(storage, first), now, max1, window1).1
    ensures first != second ==>
              (r.1 <==> r.0 && Attempt(History(storage, second), now, max2, window2).0)
              && History(r.2, second) == if r.0 then Attempt(History(storage, second), now, max2, window2).1
                                         else History(storage, second)
    ensures forall k :: k != first && k != second ==> History(r.2, k) == History(storage, k)
    ensures !r.0 ==> !r.1
  {
    var s1 := Attempt(History(storage, first), now, max1, window1);
    var afterFirst := storage[first := s1.1];
    if !s1.0 then (false, false, afterFirst)
    else
      var s2 := Attempt(History(afterFirst, second), now, max2, window2);
      (true, s2.0, afterFirst[second := s2.1])
  }

  /** The mail step let the request succeed: the code went out, or no mail service is
      configured. */
  predicate MailAccepted(delivery: Delivery, mailConfigured: bool) {
    delivery.Delivered? || (delivery.NotDelivered? && !mailConfigured)
  }

  /** The answer of `send_verification_code`, given the decisions of its client and address
      limits; `expiresIn` is the response's remaining validity. */
  function SendAnswer(ipOk: bool, emailOk: bool, registeredVerified: bool, delivery: Delivery,
                      mailConfigured: bool, expiresIn: nat)
    : (r: Result<VerificationResponse, HttpError>)
    // Success exactly when both limits admit the call, the address is not verified yet and
    // the mail step succeeded.
    ensures r.Ok? <==> ipOk && emailOk && !registeredVerified && MailAccepted(delivery, mailConfigured)
    ensures r.Ok? ==> r.value == VerificationResponse(CodeSent, Some(expiresIn))
    // The refusals in their order: the client limit, the address limit, the verified
    // address; a 500 exactly when the code was issued but the mail step failed.
    ensures !ipOk ==> r == Err(HttpError(TooManyRequests, TooManyVerifyAttempts))
    ensures ipOk && !emailOk ==> r == Err(HttpError(TooManyRequests, TooManyCodesForEmail))
    ensures ipOk && emailOk && registeredVerified ==> r == Err(HttpError(BadRequest, AlreadyVerified))
    ensures (r.Err? && r.error.status == InternalServerError)
            <==> ipOk && emailOk && !registeredVerified && !MailAccepted(delivery, mailConfigured)
    ensures ipOk && emailOk && !registeredVerified && delivery.Raised?
            ==> r == Err(HttpError(InternalServerError, SendCodeFailed))
    ensures ipOk && emailOk && !registeredVerified && delivery.NotDelivered? && mailConfigured
            ==> r == Err(HttpError(InternalServerError, SendEmailFailed))
  {
    if !ipOk then Err(HttpError(TooManyRequests, TooManyVerifyAttempts))
    else if !emailOk then Err(HttpError(TooManyRequests, TooManyCodesForEmail))
    else if registeredVerified then Err(HttpError(BadRequest, AlreadyVerified))
    else if delivery.Raised? then Err(HttpError(InternalServerError, SendCodeFailed))
    else if delivery.NotDelivered? && mailConfigured then Err(HttpError(InternalServerError, SendEmailFailed))
    else Ok(VerificationResponse(CodeSent, Some(expiresIn)))
  }

  /** `send_verification_code` for `email` from `client` at time `now`, the response computed
      at `later`; `registeredVerified` is whether a verified user has this address. */
  method SendVerificationCode(limiter: RateLimiter, table: CodeTable, client: Option<string>, email: string,
                              registeredVerified: bool, draw: int, delivery: Delivery, mailConfigured: bool,
                              now: Instant, later: Instant)
    returns (r: Result<VerificationResponse, HttpError>)
    requires table.Valid() && CodeMin <= draw <= CodeMax
    modifies limiter, table
    ensures table.Valid()
    // The client limit, then the address limit, counts the call; the answer follows from
    // their decisions. Past the limits and the verified-address check a code is issued and
    // committed, whatever the mail service then does; a refusal before that point changes no
    // code.
    ensures var (ipOk, emailOk, storage) :=
              old(TwoLimits(limiter.storage, VerifyIpPrefix + ClientIp(client), 5, 15,
                            VerifyEmailPrefix + Lower(email), 3, 15, now));
            limiter.storage == storage
            && r == SendAnswer(ipOk, emailOk, registeredVerified, delivery, mailConfigured,
                               ExpiresIn(AddMicros(now, Minutes(ExpiryMinutes)), later))
            && table.rows == if ipOk && emailOk && !registeredVerified then AfterIssue(old(table.rows), email, draw, now)
                             else old(table.rows)
  {
    KeysDiffer(VerifyIpPrefix, VerifyEmailPrefix, ClientIp(client), Lower(email), 7);
    var allowed := limiter.CheckRateLimit(VerifyIpPrefix + ClientIp(client), 5, 15, now);
    if !allowed {
      return Err(HttpError(TooManyRequests, TooManyVerifyAttempts));
    }
    var emailLower := Lower(email);
    allowed := limiter.CheckRateLimit(VerifyEmailPrefix + emailLower, 3, 15, now);
    if !allowed {
      return Err(HttpError(TooManyRequests, TooManyCodesForEmail));
    }
    if registeredVerified {
      return Err(HttpError(BadRequest, AlreadyVerified));
    }
    ghost var before := table.rows;
    IssueKeepsOneUnused(before, emailLower, draw, now);
    LowerIdempotent(email);
    var v := table.Issue(emailLower, draw, now);
    assert table.rows == AfterIssue(before, email, draw, now);
    if delivery.Raised? {
      return Err(HttpError(InternalServerError, SendCodeFailed));
    }
    if delivery.NotDelivered? && mailConfigured {
      return Err(HttpError(InternalServerError, SendEmailFailed));
    }
    return Ok(VerificationResponse(CodeSent, Some(ExpiresIn(v.expiresAt, later))));
  }

  /** `resend_verification_code`: its own stricter limits, then the whole of
      `send_verification_code`, whose limits count the call as well. */
  method ResendVerificationCode(limiter: RateLimiter, table: CodeTable, client: Option<string>, email: string,
                                registeredVerified: bool, draw: int, delivery: Delivery, mailConfigured: bool,
                                now: Instant, later: Instant)
    returns (r: Result<VerificationResponse, HttpError>)
    requires table.Valid() && CodeMin <= draw <= CodeMax
    modifies limiter, table
    ensures table.Valid()
    // Its own client and address limits refuse first, changing no code; past them the call
    // is exactly `send_verification_code` on the records they left.
    ensures var (ipOk, emailOk, storage) :=
              old(TwoLimits(limiter.storage, ResendIpPrefix + ClientIp(client), 3, 30,
                            ResendEmailPrefix + Lower(email), 2, 30, now));
            var (sendIpOk, sendEmailOk, storage') :=
              TwoLimits(storage, VerifyIpPrefix + ClientIp(client), 5, 15, VerifyEmailPrefix + Lower(email), 3, 15, now);
            if !ipOk then
              r == Err(HttpError(TooManyRequests, TooManyResends)) && limiter.storage == storage
              && table.rows == old(table.rows)
            else if !emailOk then
              r == Err(HttpError(TooManyRequests, TooManyResendsForEmail)) && limiter.storage == storage
              && table.rows == old(table.rows)
            else
              limiter.storage == storage'
              && r == SendAnswer(sendIpOk, sendEmailOk, registeredVerified, delivery, mailConfigured,
                                 ExpiresIn(AddMicros(now, Minutes(ExpiryMinutes)), later))
              && table.rows == if sendIpOk && sendEmailOk && !registeredVerified
                               then AfterIssue(old(table.rows), email, draw, now) else old(table.rows)
  {
    KeysDiffer(ResendIpPrefix, ResendEmailPrefix, ClientIp(client), Lower(email), 7);
    var allowed := limiter.CheckRateLimit(ResendIpPrefix + ClientIp(client), 3, 30, now);
    if !allowed {
      return Err(HttpError(TooManyRequests, TooManyResends));
    }
    allowed := limiter.CheckRateLimit(ResendEmailPrefix + Lower(email), 2, 30, now);
    if !allowed {
      return Err(HttpError(TooManyRequests, TooManyResendsForEmail));
    }
    r := SendVerificationCode(limiter, table, client, email, registeredVerified, draw, delivery, mailConfigured, now, later);
  }

  /** `verify_email_code` at time `now`. Marking a user with this address verified is not
      part of this model. */
  method VerifyEmailCode(limiter: RateLimiter, table: CodeTable, client: Option<string>, email: string,
                         code: string, now: Instant)
    returns (r: Result<VerificationResponse, HttpError>)
    requires table.Valid()
    modifies limiter, table
    ensures table.Valid()
    // The limiter counts the call under the client's key only.
    ensures var key := VerifyCheckIpPrefix + ClientIp(client);
            limiter.storage == old(limiter.storage)[key := Attempt(History(old(limiter.storage), key), now, 10, 15).1]
    // Refused by the limit with no code touched; otherwise the table's answer, which is a
    // success exactly when the one unused row with this address and code is valid now.
    ensures var allowed := old(Attempt(History(limiter.storage, VerifyCheckIpPrefix + ClientIp(client)), now, 10, 15).0);
            var (redeemed, after) := Redeemed(old(table.rows), Lower(email), code, now);
            if !allowed then r == Err(HttpError(TooManyRequests, TooManyVerifyAttempts)) && table.rows == old(table.rows)
            else table.rows == after
                 && r == if redeemed.Ok? then Ok(VerificationResponse(EmailVerifiedMessage, None)) else Err(redeemed.error)
  {
    var allowed := limiter.CheckRateLimit(VerifyCheckIpPrefix + ClientIp(client), 10, 15, now);
    if !allowed {
      return Err(HttpError(TooManyRequests, TooManyVerifyAttempts));
    }
    ghost var before := table.rows;
    RedeemOnce(before, Lower(email), code, now, now);
    RedeemedOutcome(before, Lower(email), code, now);
    var redeemed := table.Redeem(Lower(email), code, now);
    if redeemed.Err? {
      return Err(redeemed.error);
    }
    return Ok(VerificationResponse(EmailVerifiedMessage, None));
  }
}
