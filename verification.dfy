/**
 * The one-shot email verification codes (`app/models/email_verification.py`): a six-digit
 * code sent to an address, valid for 15 minutes, that can be used to verify once. The clock
 * is a parameter, and so is the value `random.randint` draws.
 */
module EmailVerifications {
  import opened Wrappers
  import opened Clock
  import opened PyStr

  const CodeMin: nat := 100000
  const CodeMax: nat := 999999
  const ExpiryMinutes: int := 15

  function DigitChar(d: nat): (c: char)
    requires d < 10
    ensures IsDigit(c) && c as int - '0' as int == d
  {
    ('0' as int + d) as char
  }

  /** `str(n)` for a natural number: its decimal digits, without leading zeros. */
  function DecimalString(n: nat): (s: string)
    ensures |s| >= 1 && forall k :: 0 <= k < |s| ==> IsDigit(s[k])
  {
    if n < 10 then [DigitChar(n)] else DecimalString(n / 10) + [DigitChar(n % 10)]
  }

  function DigitValue(c: char): (d: nat)
    requires IsDigit(c)
    ensures d < 10
  {
    c as int - '0' as int
  }

  /** The number a string of decimal digits denotes. */
  function DecimalValue(s: string): nat
    requires forall k :: 0 <= k < |s| ==> IsDigit(s[k])
  {
    if s == [] then 0 else DecimalValue(s[..|s| - 1]) * 10 + DigitValue(s[|s| - 1])
  }

  function Pow10(k: nat): (p: nat)
    ensures p >= 1
  {
    if k == 0 then 1 else 10 * Pow10(k - 1)
  }

  /** Reading back the digits of `n` gives `n`, the leading digit is zero only for 0, and a
      number in [10^(k-1), 10^k) has k digits. */
  lemma {:induction false} DecimalStringFacts(n: nat, k: nat)
    ensures DecimalValue(DecimalString(n)) == n
    ensures n > 0 ==> DecimalString(n)[0] != '0'
    ensures 1 <= k && Pow10(k - 1) <= n < Pow10(k) ==> |DecimalString(n)| == k
    decreases n
  {
    var s := DecimalString(n);
    if n >= 10 {
      var q := n / 10;
      DecimalStringFacts(q, if k >= 1 then k - 1 else 0);
      var t := DecimalString(q);
      assert s == t + [DigitChar(n % 10)];
      assert s[..|s| - 1] == t;
      assert s[0] == t[0];
      if 1 <= k && Pow10(k - 1) <= n < Pow10(k) {
        assert Pow10(k - 2) <= q < Pow10(k - 1);
      }
    } else {
      assert s[..|s| - 1] == [];
    }
  }

  /** `generate_code()` for the value `draw` that `random.randint(100000, 999999)` returned:
      a six-digit decimal string without a leading zero that denotes `draw`. */
  function GenerateCode(draw: int): (code: string)
    requires CodeMin <= draw <= CodeMax
    ensures |code| == 6 && forall k :: 0 <= k < 6 ==> IsDigit(code[k])
    ensures code[0] != '0' && DecimalValue(code) == draw
  {
    DecimalStringFacts(draw, 6);
    assert Pow10(5) == 100000 && Pow10(6) == 1000000;
    DecimalString(draw)
  }

  /** The mutable part of a code row. */
  datatype CodeState = CodeState(verifiedAt: Option<Instant>, isUsed: bool, expiresAt: Instant)

  /** `is_valid()` at time `now`: unused, never verified, and `now` not past the expiry. */
  predicate Valid(s: CodeState, now: Instant) {
    !s.isUsed && s.verifiedAt.None? && !Before(s.expiresAt, now)
  }

  /** `verify()` at time `now`: whether it succeeds, and the state it leaves. */
  function Verified(s: CodeState, now: Instant): (r: (bool, CodeState))
    // It succeeds exactly when the code is valid; a failure changes nothing.
    ensures r.0 <==> Valid(s, now)
    ensures !r.0 ==> r.1 == s
    ensures r.0 ==> r.1 == s.(verifiedAt := Some(now), isUsed := true)
  {
    if !Valid(s, now) then (false, s) else (true, s.(verifiedAt := Some(now), isUsed := true))
  }

  /** A code verifies at most once: after a success it is invalid at every time, and a
      second `verify` fails and changes nothing. */
  lemma OneShot(s: CodeState, now: Instant, later: Instant)
    requires Verified(s, now).0
    ensures !Valid(Verified(s, now).1, later)
    ensures Verified(Verified(s, now).1, later) == (false, Verified(s, now).1)
  {
  }

  /** A fresh code is valid exactly until its expiry, 15 minutes after its creation. */
  lemma FreshValidFor15Minutes(createdAt: Instant, t: Instant)
    ensures var s := CodeState(None, false, AddMicros(createdAt, Minutes(ExpiryMinutes)));
            Valid(s, t) <==> Micros(t) <= Micros(createdAt) + 15 * 60 * MicrosPerSecond
  {
  }

  /** A row of `email_verifications`. */
  class EmailVerification {
    const email: string
    const code: string
    const expiresAt: Instant
    const createdAt: Instant
    var verifiedAt: Option<Instant>
    var isUsed: bool

    function State(): CodeState
      reads this
    {
      CodeState(verifiedAt, isUsed, expiresAt)
    }

    /** `create_verification(email)` at time `now`, as stored: the email lower-cased, the code
        drawn, expiry 15 minutes later, not yet verified nor used (the column defaults). */
    constructor Create(email: string, draw: int, now: Instant)
      requires CodeMin <= draw <= CodeMax
      ensures this.email == Lower(email) && code == GenerateCode(draw) && createdAt == now
      ensures expiresAt == AddMicros(now, Minutes(ExpiryMinutes))
      ensures Micros(expiresAt) == Micros(now) + Minutes(ExpiryMinutes)
      ensures verifiedAt == None && !isUsed
      ensures Valid(State(), now)
    {
      this.email := Lower(email);
      code := GenerateCode(draw);
      expiresAt := AddMicros(now, Minutes(ExpiryMinutes));
      createdAt := now;
      verifiedAt := None;
      isUsed := false;
    }

    /** `is_valid()` at time `now`. */
    predicate IsValid(now: Instant)
      reads this
    {
      Valid(State(), now)
    }

    /** `verify()` at time `now`. */
    method Verify(now: Instant) returns (ok: bool)
      modifies this
      ensures (ok, State()) == Verified(old(State()), now)
    {
      if !IsValid(now) {
        return false;
      }
      verifiedAt := Some(now);
      isUsed := true;
      return true;
    }
  }
}
