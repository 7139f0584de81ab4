/**
 * Authentication helpers: the password-strength rules, token and OTP expiry
 * arithmetic, the `Authorization: Bearer <token>` header parsing, OTP
 * generation from a random draw, and the cleanup of expired OTP records.
 * Hashing, signing and mail delivery are foreign code and appear only as
 * parameters.
 */
module AuthUtils {
  import opened Common

  // ----- password strength ----------------------------------------------------------

  const MinPasswordLength := 8

  /** The characters of the special-character class, in the order written. */
  const Specials := "!@#$%^&*(),.?\":{}|<>"

  predicate IsUpper(c: char) { 'A' <= c <= 'Z' }
  predicate IsLower(c: char) { 'a' <= c <= 'z' }
  predicate IsDigit(c: char) { '0' <= c <= '9' }
  predicate IsSpecial(c: char) { c in Specials }

  predicate HasUpper(p: string) { exists i :: 0 <= i < |p| && IsUpper(p[i]) }
  predicate HasLower(p: string) { exists i :: 0 <= i < |p| && IsLower(p[i]) }
  predicate HasDigit(p: string) { exists i :: 0 <= i < |p| && IsDigit(p[i]) }
  predicate HasSpecial(p: string) { exists i :: 0 <= i < |p| && IsSpecial(p[i]) }

  /** The strength rules, in the order they are checked. */
  datatype Rule = LengthRule | UpperRule | LowerRule | DigitRule | SpecialRule

  const Rules := [LengthRule, UpperRule, LowerRule, DigitRule, SpecialRule]

  predicate Satisfies(p: string, rule: Rule) {
    match rule
    case LengthRule => |p| >= MinPasswordLength
    case UpperRule => HasUpper(p)
    case LowerRule => HasLower(p)
    case DigitRule => HasDigit(p)
    case SpecialRule => HasSpecial(p)
  }

  function RuleMessage(rule: Rule): string {
    match rule
    case LengthRule => "Password must be at least 8 characters long."
    case UpperRule => "Password must contain at least one uppercase letter."
    case LowerRule => "Password must contain at least one lowercase letter."
    case DigitRule => "Password must contain at least one digit."
    case SpecialRule => "Password must contain at least one special character."
  }

  /**
   * `validate_password_strength`: `(true, "")` exactly when every rule
   * holds; otherwise `false` with the message of the first rule that fails.
   */
  function ValidatePasswordStrength(p: string): (r: (bool, string))
    ensures r.0 <==> forall k :: 0 <= k < |Rules| ==> Satisfies(p, Rules[k])
    ensures r.0 ==> r.1 == ""
    ensures !r.0 ==>
      exists k :: 0 <= k < |Rules| && !Satisfies(p, Rules[k]) &&
        r.1 == RuleMessage(Rules[k]) && (forall j :: 0 <= j < k ==> Satisfies(p, Rules[j]))
  {
    if |p| < MinPasswordLength then
      assert !Satisfies(p, Rules[0]);
      (false, RuleMessage(LengthRule))
    else if !HasUpper(p) then
      assert Satisfies(p, Rules[0]) && !Satisfies(p, Rules[1]);
      (false, RuleMessage(UpperRule))
    else if !HasLower(p) then
      assert Satisfies(p, Rules[0]) && Satisfies(p, Rules[1]) && !Satisfies(p, Rules[2]);
      (false, RuleMessage(LowerRule))
    else if !HasDigit(p) then
      assert Satisfies(p, Rules[0]) && Satisfies(p, Rules[1]) && Satisfies(p, Rules[2]);
      assert !Satisfies(p, Rules[3]);
      (false, RuleMessage(DigitRule))
    else if !HasSpecial(p) then
      assert Satisfies(p, Rules[0]) && Satisfies(p, Rules[1]) && Satisfies(p, Rules[2]);
      assert Satisfies(p, Rules[3]) && !Satisfies(p, Rules[4]);
      (false, RuleMessage(SpecialRule))
    else
      (true, "")
  }

  /**
   * Length is checked first: every short password is reported as short,
   * whatever else it lacks; a long one without an upper-case letter is
   * reported for that.
   */
  lemma LengthIsReportedFirst(p: string)
    ensures |p| < MinPasswordLength ==> ValidatePasswordStrength(p) == (false, RuleMessage(LengthRule))
    ensures |p| >= MinPasswordLength && !HasUpper(p) ==> ValidatePasswordStrength(p) == (false, RuleMessage(UpperRule))
  {
  }

  /** `Weak1` is reported as short; `weakpass1!` as lacking an upper-case letter. */
  lemma SampleWeakPasswords()
    ensures ValidatePasswordStrength("Weak1") == (false, "Password must be at least 8 characters long.")
    ensures ValidatePasswordStrength("weakpass1!") == (false, "Password must contain at least one uppercase letter.")
  {
    var p := "weakpass1!";
    assert !HasUpper(p) by {
      forall i | 0 <= i < |p| ensures !IsUpper(p[i]) {
      }
    }
  }

  /** Every password of at least eight characters with one character of each class passes. */
  lemma StrongPasswordPasses(p: string)
    requires |p| >= MinPasswordLength && HasUpper(p) && HasLower(p) && HasDigit(p) && HasSpecial(p)
    ensures ValidatePasswordStrength(p) == (true, "")
  {
    forall k | 0 <= k < |Rules| ensures Satisfies(p, Rules[k]) {
    }
  }

  /** `Str0ng!pw` has a character of each class. */
  lemma SamplePasswordIsStrong()
    ensures ValidatePasswordStrength("Str0ng!pw") == (true, "")
  {
    var p := "Str0ng!pw";
    assert IsUpper(p[0]) && IsLower(p[1]) && IsDigit(p[3]) && IsSpecial(p[6]);
    StrongPasswordPasses(p);
  }

  // ----- expiry arithmetic (time in seconds) ----------------------------------------

  const SecondsPerMinute := 60
  const SecondsPerHour := 3600
  const AccessTokenExpireHours := 24
  const OtpExpireMinutes := 10

  /** The claims a signed token carries; there is no email among them. */
  datatype Claims = Claims(userId: string, role: string, exp: int)

  /** `create_jwt_token`'s payload: the token expires 24 hours after issue. */
  function CreateJwtClaims(userId: string, role: string, now: int): (c: Claims)
    ensures c.userId == userId && c.role == role
    ensures c.exp - now == 24 * 60 * 60
  {
    Claims(userId, role, now + AccessTokenExpireHours * SecondsPerHour)
  }

  /** `otp_expiry_time`: ten minutes after now. */
  function OtpExpiryTime(now: int): (t: int)
    ensures t - now == 10 * 60
  {
    now + OtpExpireMinutes * SecondsPerMinute
  }

  // ----- token decoding and the Authorization header --------------------------------

  /** What the signing library reports for a token. */
  datatype JwtOutcome = Verified(claims: Claims) | ExpiredSignature | InvalidToken

  /** `decode_jwt_token`'s result: the payload, or a message. */
  datatype Decoded = DecodeOk(data: Claims) | DecodeFailed(message: string)

  function DecodeJwtToken(o: JwtOutcome): (d: Decoded)
    ensures d.DecodeOk? <==> o.Verified?
    ensures o.Verified? ==> d.data == o.claims
    ensures o.ExpiredSignature? ==> d == DecodeFailed("Token expired")
    ensures o.InvalidToken? ==> d == DecodeFailed("Invalid token")
  {
    match o
    case Verified(c) => DecodeOk(c)
    case ExpiredSignature => DecodeFailed("Token expired")
    case InvalidToken => DecodeFailed("Invalid token")
  }

  /** `str.split(" ")`: the pieces between single spaces, empty pieces included. */
  function Split(s: string): (r: seq<string>)
    ensures |r| >= 1
    ensures forall k :: 0 <= k < |r| ==> ' ' !in r[k]
  {
    if s == [] then [""]
    else if s[0] == ' ' then [""] + Split(s[1..])
    else
      var rest := Split(s[1..]);
      [[s[0]] + rest[0]] + rest[1..]
  }

  /** `" ".join(pieces)`. */
  function Join(pieces: seq<string>): string
    requires |pieces| >= 1
  {
    if |pieces| == 1 then pieces[0] else pieces[0] + " " + Join(pieces[1..])
  }

  /** Splitting loses nothing: joining the pieces gives the string back. */
  lemma {:induction false} JoinSplit(s: string)
    ensures Join(Split(s)) == s
  {
    if s == [] {
    } else if s[0] == ' ' {
      JoinSplit(s[1..]);
      assert Split(s)[1..] == Split(s[1..]);
    } else {
      var rest := Split(s[1..]);
      JoinSplit(s[1..]);
      if |rest| == 1 {
      } else {
        assert rest == [rest[0]] + rest[1..];
        assert Join(rest) == rest[0] + " " + Join(rest[1..]);
        assert Split(s)[1..] == rest[1..];
      }
    }
  }

  /** A space-free prefix followed by a space is the first piece. */
  lemma {:induction false} SplitAtFirstSpace(a: string, b: string)
    requires ' ' !in a
    ensures Split(a + " " + b) == [a] + Split(b)
  {
    if a == [] {
      assert (a + " " + b)[1..] == b;
    } else {
      assert a[0] in a && a == [a[0]] + a[1..];
      assert (a + " " + b)[0] == a[0];
      assert (a + " " + b)[1..] == a[1..] + " " + b;
      SplitAtFirstSpace(a[1..], b);
    }
  }

  /** The first piece of a string is its longest space-free prefix. */
  lemma {:induction false} FirstPieceIsPrefix(s: string)
    ensures |Split(s)[0]| <= |s| && s[..|Split(s)[0]|] == Split(s)[0]
    ensures |Split(s)[0]| < |s| ==> s[|Split(s)[0]|] == ' '
  {
    if s == [] || s[0] == ' ' {
    } else {
      FirstPieceIsPrefix(s[1..]);
    }
  }

  const BearerPrefix := "Bearer "

  predicate StartsWith(s: string, prefix: string) {
    |prefix| <= |s| && s[..|prefix|] == prefix
  }

  /**
   * `authorization.split(" ")[1]` for a header that starts with `Bearer `:
   * the characters after the prefix up to the next space or the end.
   */
  function BearerToken(header: string): (t: string)
    requires StartsWith(header, BearerPrefix)
    ensures ' ' !in t
    ensures |BearerPrefix| + |t| <= |header|
    ensures header[..|BearerPrefix| + |t|] == BearerPrefix + t
    ensures |BearerPrefix| + |t| < |header| ==> header[|BearerPrefix| + |t|] == ' '
  {
    var rest := header[|BearerPrefix|..];
    assert header == "Bearer" + " " + rest;
    SplitAtFirstSpace("Bearer", rest);
    FirstPieceIsPrefix(rest);
    var t := Split(header)[1];
    assert t == Split(rest)[0];
    assert header[..|BearerPrefix| + |t|] == BearerPrefix + rest[..|t|];
    t
  }

  /** What `get_current_user` yields: the token's payload, or a 401. */
  datatype AuthResult = Authenticated(claims: Claims) | Unauthorized(status: nat, detail: string)

  const StatusUnauthorized := 401

  /**
   * `get_current_user`: a header without the `Bearer ` prefix is refused;
   * otherwise the second piece is decoded, and an expired token and an
   * invalid one are refused alike. The caller is the payload itself.
   */
  function GetCurrentUser(authorization: string, verify: string -> JwtOutcome): (r: AuthResult)
    ensures !StartsWith(authorization, BearerPrefix) ==>
      r == Unauthorized(StatusUnauthorized, "Invalid Authorization header")
    ensures StartsWith(authorization, BearerPrefix) ==>
      (r.Authenticated? <==> verify(BearerToken(authorization)).Verified?)
    ensures StartsWith(authorization, BearerPrefix) && r.Authenticated? ==>
      r.claims == verify(BearerToken(authorization)).claims
    ensures r.Unauthorized? ==> r.status == StatusUnauthorized
    ensures StartsWith(authorization, BearerPrefix) && r.Unauthorized? ==>
      r.detail == "Invalid or expired token"
  {
    if !StartsWith(authorization, BearerPrefix) then
      Unauthorized(StatusUnauthorized, "Invalid Authorization header")
    else
      var token := BearerToken(authorization);
      match DecodeJwtToken(verify(token))
      case DecodeOk(data) => Authenticated(data)
      case DecodeFailed(_) => Unauthorized(StatusUnauthorized, "Invalid or expired token")
  }

  // ----- OTP --------------------------------------------------------------------

  function DigitChar(d: nat): char
    requires d < 10
  {
    ['0', '1', '2', '3', '4', '5', '6', '7', '8', '9'][d]
  }

  /** `str(n)` for a non-negative integer. */
  function DecimalString(n: nat): (s: string)
    ensures |s| >= 1
    ensures forall i :: 0 <= i < |s| ==> IsDigit(s[i])
  {
    if n < 10 then [DigitChar(n)] else DecimalString(n / 10) + [DigitChar(n % 10)]
  }

  /** The value a string of decimal digits denotes. */
  function DecimalValue(s: string): nat
    requires forall i :: 0 <= i < |s| ==> IsDigit(s[i])
  {
    if s == [] then 0
    else
      assert IsDigit(s[|s| - 1]);
      10 * DecimalValue(s[..|s| - 1]) + (s[|s| - 1] as int - '0' as int)
  }

  function Pow10(k: nat): nat {
    if k == 0 then 1 else 10 * Pow10(k - 1)
  }

  lemma {:induction false} DecimalRoundTrip(n: nat)
    ensures DecimalValue(DecimalString(n)) == n
  {
    if n >= 10 {
      var s := DecimalString(n);
      DecimalRoundTrip(n / 10);
      assert s[..|s| - 1] == DecimalString(n / 10);
    }
  }

  lemma {:induction false} DecimalLength(n: nat, k: nat)
    requires 1 <= k && Pow10(k - 1) <= n < Pow10(k)
    ensures |DecimalString(n)| == k
  {
    if n >= 10 {
      assert k >= 2;
      DecimalLength(n / 10, k - 1);
    }
  }

  const OtpLow := 100000
  const OtpHigh := 999999

  /**
   * `generate_otp`: the decimal text of a uniform draw from
   * `[100000, 999999]`; the draw itself is a parameter. The code is six
   * digits and reads back as the draw.
   */
  function GenerateOtp(draw: int): (otp: string)
    requires OtpLow <= draw <= OtpHigh
    ensures |otp| == 6
    ensures forall i :: 0 <= i < |otp| ==> IsDigit(otp[i])
    ensures DecimalValue(otp) == draw
  {
    assert Pow10(5) == OtpLow && Pow10(6) == OtpHigh + 1;
    DecimalLength(draw, 6);
    DecimalRoundTrip(draw);
    DecimalString(draw)
  }

  /** The message `send_otp_email` would deliver; delivery itself is not modelled. */
  datatype Mail = Mail(to: string, subject: string, body: string)

  const OtpBodyPrefix := "Your OTP for password reset is: "

  function OtpMail(to: string, otp: string): (m: Mail)
    ensures m.to == to && m.subject == "Your Password Reset OTP"
    ensures |OtpBodyPrefix| + |otp| <= |m.body|
    ensures m.body[|OtpBodyPrefix|..|OtpBodyPrefix| + |otp|] == otp
  {
    var body := OtpBodyPrefix + otp + ". It is valid for " + DecimalString(OtpExpireMinutes) + " minutes.";
    assert body[|OtpBodyPrefix|..|OtpBodyPrefix| + |otp|] == otp;
    Mail(to, "Your Password Reset OTP", body)
  }

  // ----- expired OTP cleanup ----------------------------------------------------------

  /** A stored password-reset OTP. */
  datatype OtpRecord = OtpRecord(email: string, otp: string, expiresAt: int)

  /** The records a cleanup at `now` keeps: exactly those with `expires_at >= now`, in order. */
  function Unexpired(rs: seq<OtpRecord>, now: int): (kept: seq<OtpRecord>)
    ensures forall r :: r in kept <==> r in rs && r.expiresAt >= now
    ensures |kept| <= |rs|
  {
    if rs == [] then []
    else
      var last := rs[|rs| - 1];
      assert rs == rs[..|rs| - 1] + [last];
      Unexpired(rs[..|rs| - 1], now) + (if last.expiresAt >= now then [last] else [])
  }

  /** Each unexpired record survives as often as it was stored; each expired one is gone. */
  lemma {:induction false} UnexpiredMultiplicity(rs: seq<OtpRecord>, now: int)
    ensures forall r :: multiset(Unexpired(rs, now))[r] == if r.expiresAt >= now then multiset(rs)[r] else 0
  {
    if rs != [] {
      var last := rs[|rs| - 1];
      var front := rs[..|rs| - 1];
      var tail := if last.expiresAt >= now then [last] else [];
      assert rs == front + [last];
      assert Unexpired(rs, now) == Unexpired(front, now) + tail;
      UnexpiredMultiplicity(front, now);
    }
  }

  /** Cleanup keeps order: the survivors of a front part come before those of a back part. */
  lemma {:induction false} UnexpiredAppend(a: seq<OtpRecord>, b: seq<OtpRecord>, now: int)
    ensures Unexpired(a + b, now) == Unexpired(a, now) + Unexpired(b, now)
    decreases |b|
  {
    if b == [] {
      assert a + b == a;
    } else {
      var last := b[|b| - 1];
      var front := b[..|b| - 1];
      var tail := if last.expiresAt >= now then [last] else [];
      assert (a + b)[..|a + b| - 1] == a + front;
      assert (a + b)[|a + b| - 1] == last;
      assert Unexpired(a + b, now) == Unexpired(a + front, now) + tail;
      assert Unexpired(b, now) == Unexpired(front, now) + tail;
      UnexpiredAppend(a, front, now);
      assert Unexpired(a, now) + Unexpired(front, now) + tail == Unexpired(a, now) + (Unexpired(front, now) + tail);
    }
  }

  /** How many records have `expires_at < now`. */
  function ExpiredCount(rs: seq<OtpRecord>, now: int): nat {
    if rs == [] then 0
    else ExpiredCount(rs[..|rs| - 1], now) + (if rs[|rs| - 1].expiresAt < now then 1 else 0)
  }

  lemma {:induction false} CleanupCounts(rs: seq<OtpRecord>, now: int)
    ensures |Unexpired(rs, now)| + ExpiredCount(rs, now) == |rs|
  {
    if rs != [] {
      CleanupCounts(rs[..|rs| - 1], now);
    }
  }

  /** Cleaning up twice at the same time removes nothing the second time. */
  lemma {:induction false} CleanupIdempotent(rs: seq<OtpRecord>, now: int)
    ensures Unexpired(Unexpired(rs, now), now) == Unexpired(rs, now)
  {
    if rs != [] {
      var last := rs[|rs| - 1];
      var front := Unexpired(rs[..|rs| - 1], now);
      CleanupIdempotent(rs[..|rs| - 1], now);
      if last.expiresAt >= now {
        var k := front + [last];
        assert Unexpired(rs, now) == k;
        assert k[..|k| - 1] == front && k[|k| - 1] == last;
        assert Unexpired(k, now) == Unexpired(front, now) + [last];
      } else {
        assert Unexpired(rs, now) == front;
      }
    }
  }

  /** The password-reset collection. */
  class ResetStore {
    var records: seq<OtpRecord>

    constructor (initial: seq<OtpRecord>)
      ensures records == initial
    {
      records := initial;
    }

    /** `cleanup_expired_otps`: delete every record with `expires_at < now`. */
    method CleanupExpiredOtps(now: int) returns (deleted: nat)
      modifies this
      ensures records == Unexpired(old(records), now)
      ensures deleted == ExpiredCount(old(records), now)
    {
      var kept: seq<OtpRecord> := [];
      deleted := 0;
      for i := 0 to |records|
        invariant kept == Unexpired(records[..i], now)
        invariant deleted == ExpiredCount(records[..i], now)
      {
        assert records[..i + 1][..i] == records[..i];
        if records[i].expiresAt >= now {
          kept := kept + [records[i]];
        } else {
          deleted := deleted + 1;
        }
      }
      assert records[..|records|] == records;
      records := kept;
    }
  }
}
