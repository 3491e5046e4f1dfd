/** The one-time-password life cycle of controllers/auth/auth.go: a code is
    issued to a user's email and/or mobile number, lives five minutes, and
    is redeemed at most once. The SMS and email senders are foreign: their
    outcome is an input. */
module OtpFlow {
  import opened Common
  import opened Models
  import opened Utils

  const OtpLifetime: int := 5 * OneMinute
  const VerificationPurpose: string := "Email/Mobile Verification OTP"
  const ForgotPasswordPurpose: string := "Forgot Password OTP"

  /** ExpiresAt.Before(now). */
  predicate IsExpired(o: Otp, now: Time)
  {
    o.expiresAt < now
  }

  /** The row the issue handlers create: not used, not deleted, expiring
      five minutes after `now`. */
  function IssuedOtp(id: nat, userId: nat, email: string, mobile: string, draws: seq<int>,
                     now: Time, description: string): (o: Otp)
    requires IsOtpDraw(draws)
    ensures !o.isUsed && !o.isDeleted && o.code == OtpCode(draws)
    ensures !IsExpired(o, now + OtpLifetime) && IsExpired(o, now + OtpLifetime + 1)
  {
    Otp(id, userId, email, mobile, OtpCode(draws), now + OtpLifetime, false, false, description)
  }

  /** Whether the channel of a request is already verified on the row. */
  predicate ChannelVerified(u: User, ch: Channel)
  {
    match ch
    case ByEmail(_) => u.isEmailVerified
    case ByMobile(_) => u.isMobileVerified
  }

  /** The row once the channel is verified. */
  function MarkVerified(u: User, ch: Channel): (v: User)
    ensures ChannelVerified(v, ch)
    ensures v.(isEmailVerified := u.isEmailVerified, isMobileVerified := u.isMobileVerified) == u
    ensures ch.ByEmail? ==> v.isMobileVerified == u.isMobileVerified
    ensures ch.ByMobile? ==> v.isEmailVerified == u.isEmailVerified
  {
    match ch
    case ByEmail(_) => u.(isEmailVerified := true)
    case ByMobile(_) => u.(isMobileVerified := true)
  }

  /** Dispatch: the SMS goes out when a mobile number is given, then the
      email when an address is given; the first failure is reported. */
  function DispatchFailure(email: string, mobile: string, smsDelivered: bool, emailDelivered: bool): (r: Option<string>)
    ensures r.None? <==> (mobile != "" ==> smsDelivered) && (email != "" ==> emailDelivered)
    ensures mobile != "" && !smsDelivered ==> r == Some("Failed to send OTP to mobile!")
    ensures (mobile != "" ==> smsDelivered) && email != "" && !emailDelivered ==>
              r == Some("Failed to send OTP to email!")
  {
    if mobile != "" && !smsDelivered then Some("Failed to send OTP to mobile!")
    else if email != "" && !emailDelivered then Some("Failed to send OTP to email!")
    else None
  }

  /** Where a verification request lands: indices of the user row and of
      the OTP row the handler loads. */
  datatype Challenge =
    | UnknownUser
    | NoMatchingCode(userIndex: nat)
    | ExpiredCode(userIndex: nat, otpIndex: nat)
    | LiveCode(userIndex: nat, otpIndex: nat)

  /** The lookups of VerifyOTP and ForgotPasswordVerifyOTP: the active user
      of the channel, then the first unused, undeleted OTP row with the
      channel's address and the code, then its expiry. */
  function LocateChallenge(users: seq<User>, otps: seq<Otp>, ch: Channel, code: string, now: Time): (c: Challenge)
    ensures c.UnknownUser? <==> forall j :: 0 <= j < |users| ==> !Matches(users[j], ActiveUserBy(ch))
    ensures !c.UnknownUser? ==> c.userIndex < |users| && Matches(users[c.userIndex], ActiveUserBy(ch))
    ensures !c.UnknownUser? ==> forall j :: 0 <= j < c.userIndex ==> !Matches(users[j], ActiveUserBy(ch))
    ensures c.NoMatchingCode? <==> !c.UnknownUser? && forall j :: 0 <= j < |otps| ==> !Redeemable(otps[j], ch, code)
    ensures c.ExpiredCode? || c.LiveCode? ==>
              c.otpIndex < |otps| && Redeemable(otps[c.otpIndex], ch, code)
              && forall j :: 0 <= j < c.otpIndex ==> !Redeemable(otps[j], ch, code)
    ensures c.ExpiredCode? ==> IsExpired(otps[c.otpIndex], now)
    ensures c.LiveCode? ==> !IsExpired(otps[c.otpIndex], now)
  {
    match FindUser(users, ActiveUserBy(ch))
    case None => UnknownUser
    case Some(i) =>
      match FindOtp(otps, ch, code)
      case None => NoMatchingCode(i)
      case Some(j) => if IsExpired(otps[j], now) then ExpiredCode(i, j) else LiveCode(i, j)
  }

  /** An issued OTP row is found by the channel the request named: its
      email when one was given, its mobile number otherwise. */
  lemma IssuedOtpRedeemable(o: Otp, email: string, mobile: string, code: string)
    requires o.email == email && o.mobile == mobile && o.code == code && !o.isUsed && !o.isDeleted
    ensures Redeemable(o, ChannelOf(email, mobile), code)
  {
  }

  /** Issue, then verify: if nothing else in the table answers the code,
      the row just issued is the one found; it is live until five minutes
      after issue and expired from then on. */
  lemma {:induction false} IssueThenVerify(users: seq<User>, otps: seq<Otp>, userId: nat, email: string,
                                          mobile: string, draws: seq<int>, issuedAt: Time, now: Time)
    requires IsOtpDraw(draws)
    requires FindUser(users, ActiveUserBy(ChannelOf(email, mobile))).Some?
    requires FindOtp(otps, ChannelOf(email, mobile), OtpCode(draws)).None?
    ensures var o := IssuedOtp(|otps| + 1, userId, email, mobile, draws, issuedAt, VerificationPurpose);
            var c := LocateChallenge(users, otps + [o], ChannelOf(email, mobile), OtpCode(draws), now);
            && (now <= issuedAt + OtpLifetime ==> c.LiveCode? && c.otpIndex == |otps|)
            && (now > issuedAt + OtpLifetime ==> c.ExpiredCode? && c.otpIndex == |otps|)
  {
    var ch := ChannelOf(email, mobile);
    var code := OtpCode(draws);
    var o := IssuedOtp(|otps| + 1, userId, email, mobile, draws, issuedAt, VerificationPurpose);
    IssuedOtpRedeemable(o, email, mobile, code);
    FirstAppend(otps, o, (x: Otp) => Redeemable(x, ch, code));
    assert FindOtp(otps + [o], ch, code) == Some(|otps|);
  }

  /** Single use: once the row a live challenge found is marked used (and
      the user row changes only in its verified flags), no later request
      lands on that row again; if it was the only row answering the code,
      the code is rejected outright. */
  lemma {:induction false} ConsumedCodeIsGone(users: seq<User>, otps: seq<Otp>, ch: Channel,
                                              code: string, now: Time, later: Time)
    requires LocateChallenge(users, otps, ch, code, now).LiveCode?
    ensures var c := LocateChallenge(users, otps, ch, code, now);
            var users' := users[c.userIndex := MarkVerified(users[c.userIndex], ch)];
            var otps' := otps[c.otpIndex := otps[c.otpIndex].(isUsed := true)];
            var d := LocateChallenge(users', otps', ch, code, later);
            && (d.ExpiredCode? || d.LiveCode? ==> d.otpIndex != c.otpIndex && d.otpIndex > c.otpIndex)
            && ((forall j :: 0 <= j < |otps| && j != c.otpIndex ==> !Redeemable(otps[j], ch, code)) ==>
                  d == NoMatchingCode(c.userIndex))
  {
    var c := LocateChallenge(users, otps, ch, code, now);
    var users' := users[c.userIndex := MarkVerified(users[c.userIndex], ch)];
    var otps' := otps[c.otpIndex := otps[c.otpIndex].(isUsed := true)];
    SameQueryColumns(users, c.userIndex, MarkVerified(users[c.userIndex], ch), ActiveUserBy(ch));
    assert FindUser(users', ActiveUserBy(ch)) == Some(c.userIndex);
    assert !Redeemable(otps'[c.otpIndex], ch, code);
    assert forall j :: 0 <= j <= c.otpIndex ==> !Redeemable(otps'[j], ch, code);
  }

  /** Verifying a channel closes it to SendOTP: the same lookup finds the
      same row, now verified on that channel. */
  lemma VerifiedChannelStaysVerified(users: seq<User>, i: nat, ch: Channel)
    requires FindUser(users, ActiveUserBy(ch)) == Some(i)
    ensures var users' := users[i := MarkVerified(users[i], ch)];
            FindUser(users', ActiveUserBy(ch)) == Some(i) && ChannelVerified(users'[i], ch)
  {
    SameQueryColumns(users, i, MarkVerified(users[i], ch), ActiveUserBy(ch));
  }
}
