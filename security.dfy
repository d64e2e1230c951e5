/**
 * The password policy and the access-token guard (`validate_password_strength`,
 * `create_access_token`). Hashing, signing and decoding tokens are done by libraries and are
 * not modelled; a token is the set of claims it would carry.
 */
module Security {
  import opened Wrappers
  import opened Clock
  import opened PyStr

  const MinPasswordLength: nat := 8
  const MaxPasswordLength: nat := 128
  const AccessTokenExpireMinutes: int := 60 * 24 * 7
  const MinSecretKeyLength: nat := 32

  /** `any(char.isdigit() for char in s)`, scanning from the left. */
  function AnyDigit(s: string): bool {
    if s == [] then false else IsDigit(s[0]) || AnyDigit(s[1..])
  }

  /** `any(char.isalpha() for char in s)`, scanning from the left. */
  function AnyAlpha(s: string): bool {
    if s == [] then false else IsAlpha(s[0]) || AnyAlpha(s[1..])
  }

  lemma {:induction false} AnyDigitIffExists(s: string)
    ensures AnyDigit(s) <==> exists i :: 0 <= i < |s| && IsDigit(s[i])
    decreases |s|
  {
    if s != [] {
      AnyDigitIffExists(s[1..]);
      assert forall i :: 0 < i < |s| ==> s[i] == s[1..][i - 1];
      if IsDigit(s[0]) {
        assert 0 < |s| && IsDigit(s[0]);
      }
    }
  }

  lemma {:induction false} AnyAlphaIffExists(s: string)
    ensures AnyAlpha(s) <==> exists i :: 0 <= i < |s| && IsAlpha(s[i])
    decreases |s|
  {
    if s != [] {
      AnyAlphaIffExists(s[1..]);
      assert forall i :: 0 < i < |s| ==> s[i] == s[1..][i - 1];
      if IsAlpha(s[0]) {
        assert 0 < |s| && IsAlpha(s[0]);
      }
    }
  }

  /** `validate_password_strength(password)`: the first failing rule's message, or
      (True, "") for an acceptable password. */
  function ValidatePasswordStrength(password: string): (r: (bool, string))
    // Accepted exactly when the length is within [8, 128] and some character is a digit
    // and some character is a letter.
    ensures r.0 <==> MinPasswordLength <= |password| <= MaxPasswordLength
                     && (exists i :: 0 <= i < |password| && IsDigit(password[i]))
                     && (exists i :: 0 <= i < |password| && IsAlpha(password[i]))
    ensures r.0 ==> r.1 == ""
    // The checks run in a fixed order: length first, then digit, then letter.
    ensures |password| < MinPasswordLength ==> r.1 == "Password must be at least 8 characters long"
    ensures MaxPasswordLength < |password| ==> r.1 == "Password must not exceed 128 characters"
    ensures MinPasswordLength <= |password| <= MaxPasswordLength
            && !(exists i :: 0 <= i < |password| && IsDigit(password[i]))
            ==> r == (false, "Password must contain at least one number")
    ensures MinPasswordLength <= |password| <= MaxPasswordLength
            && (exists i :: 0 <= i < |password| && IsDigit(password[i]))
            && !(exists i :: 0 <= i < |password| && IsAlpha(password[i]))
            ==> r == (false, "Password must contain at least one letter")
    ensures !r.0 ==> r.1 != ""
  {
    AnyDigitIffExists(password);
    AnyAlphaIffExists(password);
    if |password| < MinPasswordLength then (false, "Password must be at least 8 characters long")
    else if |password| > MaxPasswordLength then (false, "Password must not exceed 128 characters")
    else if !AnyDigit(password) then (false, "Password must contain at least one number")
    else if !AnyAlpha(password) then (false, "Password must contain at least one letter")
    else (true, "")
  }

  /** A password in the length range that has a digit but no letter gets the letter message. */
  lemma DigitsOnlyRejected(password: string)
    requires MinPasswordLength <= |password| <= MaxPasswordLength
    requires forall i :: 0 <= i < |password| ==> IsDigit(password[i])
    ensures ValidatePasswordStrength(password) == (false, "Password must contain at least one letter")
  {
    AnyDigitIffExists(password);
    AnyAlphaIffExists(password);
    assert IsDigit(password[0]);
  }

  /** The claims a token carries besides its signature and random identifier. */
  datatype Claims = Claims(userId: string, email: Option<string>, isTrial: bool)

  datatype AccessToken = AccessToken(claims: Claims, expiresAt: Instant, issuedAt: Instant)

  /** `create_access_token(data, expires_delta)` at time `now` with the configured secret key;
      a zero delta is falsy and, like a missing one, gives the default lifetime of 7 days. */
  function CreateAccessToken(claims: Claims, expiresDelta: Option<int>, now: Instant, secretKey: string)
    : (r: Result<AccessToken, string>)
    ensures r.Err? <==> |secretKey| < MinSecretKeyLength
    ensures r.Err? ==> r.error == "SECRET_KEY must be at least 32 characters long"
    ensures r.Ok? ==> r.value.claims == claims && r.value.issuedAt == now
    ensures r.Ok? ==> Micros(r.value.expiresAt) - Micros(now) ==
                        if expiresDelta.Some? && expiresDelta.value != 0 then expiresDelta.value else Days(7)
  {
    var expire := if expiresDelta.Some? && expiresDelta.value != 0 then AddMicros(now, expiresDelta.value)
                  else AddMicros(now, Minutes(AccessTokenExpireMinutes));
    if |secretKey| < MinSecretKeyLength then Err("SECRET_KEY must be at least 32 characters long")
    else Ok(AccessToken(claims, expire, now))
  }
}
