/** The handlers of controllers/auth/auth.go, as methods on the shared
    store. The request body arrives already parsed; the clock reading, the
    senders' outcomes, the random draws, bcrypt (`hash`, `compare`) and the
    token signer (`sign`) are parameters. */
module AuthController {
  import opened Common
  import opened Models
  import opened Store
  import opened Utils
  import opened Jwt
  import opened Referral
  import opened Registration
  import opened Lockout
  import opened OtpFlow

  /** The creating half of Signup, once both conflict checks have passed:
      draw a referral code no row holds, hash the password, create the row. */
  method Register(db: Database, body: User, draws: seq<seq<int>>, hash: string -> Option<string>)
    returns (created: Option<User>)
    requires db.Valid()
    requires forall k :: 0 <= k < |draws| ==> IsDraw(draws[k])
    requires exists k :: 0 <= k < |draws| && !CodeInUse(db.users, Candidate(draws[k]))
    modifies db`users
    ensures db.Valid()
    ensures created.Some? <==> hash(body.password).Some?
    ensures created.None? ==> db.users == old(db.users)
    ensures created.Some? ==>
              && db.users == old(db.users) + [created.value]
              && created.value == body.(id := |old(db.users)| + 1, referralCode := created.value.referralCode,
                                        password := hash(body.password).value)
              && IsReferralCode(created.value.referralCode)
              && !CodeInUse(old(db.users), created.value.referralCode)
    ensures DistinctCodes(old(db.users)) ==> DistinctCodes(db.users)
    ensures SignupConflict(old(db.users), body.email, body.mobile) == NoConflict && UniqueContacts(old(db.users)) ==>
              UniqueContacts(db.users)
  {
    var code := GenerateUniqueCode(db, draws);
    assert !CodeInUse(db.users, code);
    var hashed := hash(body.password);
    if hashed.None? {
      return None;
    }
    ghost var before := db.users;
    var user := db.CreateUser(body.(referralCode := code, password := hashed.value));
    if DistinctCodes(before) {
      FreshCodeKeepsDistinct(before, user);
    }
    if SignupConflict(before, body.email, body.mobile) == NoConflict && UniqueContacts(before) {
      NoConflictKeepsUnique(before, user);
    }
    return Some(user);
  }

  /** Signup: reject a known email, then a known mobile number; otherwise
      store the body with a fresh referral code and the password's hash. */
  method Signup(db: Database, body: User, draws: seq<seq<int>>, hash: string -> Option<string>)
    returns (reply: Reply<User>)
    requires db.Valid()
    requires forall k :: 0 <= k < |draws| ==> IsDraw(draws[k])
    requires SignupConflict(db.users, body.email, body.mobile) == NoConflict ==>
               exists k :: 0 <= k < |draws| && !CodeInUse(db.users, Candidate(draws[k]))
    modifies db`users
    ensures db.Valid()
    ensures var c := SignupConflict(old(db.users), body.email, body.mobile);
            && (c == EmailTaken ==> reply == Failure(StatusConflict, "Email is already registered!"))
            && (c == MobileTaken ==> reply == Failure(StatusConflict, "Mobile number is already registered!"))
            && (c == NoConflict && hash(body.password).None? ==>
                  reply == Failure(StatusInternalServerError, "Failed to process your request!"))
            && (reply.success <==> c == NoConflict && hash(body.password).Some?)
    ensures !reply.success ==> db.users == old(db.users)
    ensures reply.success ==>
              && |db.users| == |old(db.users)| + 1 && db.users[..|old(db.users)|] == old(db.users)
              && var stored := db.users[|old(db.users)|];
              && stored == body.(id := |old(db.users)| + 1, referralCode := stored.referralCode,
                                 password := hash(body.password).value)
              && IsReferralCode(stored.referralCode)
              && !CodeInUse(old(db.users), stored.referralCode)
              && reply == Reply(StatusCreated, true, "User registered successfully.", Some(stored.(password := "")))
    ensures UniqueContacts(old(db.users)) ==> UniqueContacts(db.users)
    ensures DistinctCodes(old(db.users)) ==> DistinctCodes(db.users)
  {
    if FindUser(db.users, EmailIs(body.email)).Some? {
      reply := Failure(StatusConflict, "Email is already registered!");
      return;
    }
    if FindUser(db.users, MobileIs(body.mobile)).Some? {
      reply := Failure(StatusConflict, "Mobile number is already registered!");
      return;
    }
    ghost var before := db.users;
    var created := Register(db, body, draws, hash);
    if created.None? {
      reply := Failure(StatusInternalServerError, "Failed to process your request!");
      return;
    }
    assert db.users[..|before|] == before;
    reply := Reply(StatusCreated, true, "User registered successfully.", Some(created.value.(password := "")));
  }

  /** What Login answers for an attempt's outcome; the two login handlers
      word the wrong-password reply differently. */
  function LoginReply(outcome: Outcome, after: User, sign: Claims -> Option<string>, now: Time,
                      wrongPassword: string): (r: Reply<Session>)
    ensures r.success <==> outcome == Admitted && sign(NewClaims(after.id, after.name, now)).Some?
    ensures r.status == StatusUnauthorized <==> outcome != Admitted
    ensures r.success ==> r.data.Some? && r.data.value.user == Sanitized(after)
                          && Some(r.data.value.token) == sign(NewClaims(after.id, after.name, now))
  {
    match outcome
    case EmailNotVerified => Failure(StatusUnauthorized, "Email not verified!")
    case MobileNotVerified => Failure(StatusUnauthorized, "Mobile not verified!")
    case TemporarilyBlocked => Failure(StatusUnauthorized, "Your account is temporarily blocked. Try again later.")
    case WrongPassword => Failure(StatusUnauthorized, wrongPassword)
    case Admitted =>
      match sign(NewClaims(after.id, after.name, now))
      case None => Failure(StatusInternalServerError, "Error generating JWT token!")
      case Some(token) => Reply(StatusOK, true, "Login successful.", Some(Session(Sanitized(after), token)))
  }

  /** The gates of Login once row `i` is loaded: verification, block,
      decay, then the password, saving the row where the handler does. */
  method LoginGates(db: Database, i: nat, password: string, compare: (string, string) -> bool, now: Time)
    returns (outcome: Outcome)
    requires db.Valid() && i < |db.users|
    modifies db`users
    ensures db.Valid()
    ensures var u := old(db.users)[i];
            var r := Attempt(u, compare(u.password, password), now);
            outcome == r.0 && db.users == old(db.users)[i := r.1]
  {
    var user := db.users[i];
    if !user.isEmailVerified {
      return EmailNotVerified;
    }
    if !user.isMobileVerified {
      return MobileNotVerified;
    }
    if user.isBlocked && user.blockedUntil.Some? && now < user.blockedUntil.value {
      return TemporarilyBlocked;
    }
    if user.lastFailedLogin.Some? && now - user.lastFailedLogin.value > DecayWindow {
      user := user.(failedLoginAttempts := 0, lastFailedLogin := None);
      db.SaveUser(user);
    }
    if !compare(user.password, password) {
      user := user.(failedLoginAttempts := user.failedLoginAttempts + 1, lastFailedLogin := Some(now));
      if user.failedLoginAttempts >= MaxFailedAttempts {
        user := user.(isBlocked := true, blockedUntil := Some(now + BlockDuration));
        db.SaveUser(user);
      }
      db.SaveUser(user);
      return WrongPassword;
    }
    user := user.(lastLogin := now, failedLoginAttempts := 0, isBlocked := false);
    db.SaveUser(user);
    return Admitted;
  }

  /** Login with the lockout policy: the row found by email (or, without
      one, by mobile number) goes through Lockout.Attempt and is saved as
      that leaves it. */
  method Login(db: Database, email: string, mobile: string, password: string,
               compare: (string, string) -> bool, sign: Claims -> Option<string>, now: Time)
    returns (reply: Reply<Session>)
    requires db.Valid()
    modifies db`users
    ensures db.Valid()
    ensures var found := FindUser(old(db.users), ActiveUserBy(ChannelOf(email, mobile)));
            && (found.None? ==>
                  reply == Failure(StatusUnauthorized, "Invalid credentials!") && db.users == old(db.users))
            && (found.Some? ==>
                  var u := old(db.users)[found.value];
                  var r := Attempt(u, compare(u.password, password), now);
                  db.users == old(db.users)[found.value := r.1] && reply == LoginReply(r.0, r.1, sign, now, "Wrong Password"))
  {
    var found: Option<nat>;
    if email != "" {
      found := FindUser(db.users, ActiveEmail(email));
    } else {
      found := FindUser(db.users, ActiveMobile(mobile));
    }
    if found.None? {
      reply := Failure(StatusUnauthorized, "Invalid credentials!");
      return;
    }
    var outcome := LoginGates(db, found.value, password, compare, now);
    match outcome {
      case EmailNotVerified =>
        reply := Failure(StatusUnauthorized, "Email not verified!");
      case MobileNotVerified =>
        reply := Failure(StatusUnauthorized, "Mobile not verified!");
      case TemporarilyBlocked =>
        reply := Failure(StatusUnauthorized, "Your account is temporarily blocked. Try again later.");
      case WrongPassword =>
        reply := Failure(StatusUnauthorized, "Wrong Password");
      case Admitted =>
        var view := Sanitized(db.users[found.value]);
        var token := sign(NewClaims(view.id, view.name, now));
        if token.None? {
          reply := Failure(StatusInternalServerError, "Error generating JWT token!");
          return;
        }
        reply := Reply(StatusOK, true, "Login successful.", Some(Session(view, token.value)));
    }
  }

  /** The common tail of SendOTP and ForgotPasswordSendOTP: draw the code,
      dispatch it, and create the row only once dispatch has succeeded. */
  method IssueOtp(db: Database, userId: nat, email: string, mobile: string, draws: seq<int>,
                  smsDelivered: bool, emailDelivered: bool, now: Time, description: string)
    returns (reply: Reply<()>)
    requires db.Valid() && IsOtpDraw(draws)
    modifies db`otps
    ensures db.Valid()
    ensures var failure := DispatchFailure(email, mobile, smsDelivered, emailDelivered);
            && (failure.Some? ==>
                  reply == Failure(StatusInternalServerError, failure.value) && db.otps == old(db.otps))
            && (failure.None? ==>
                  reply == Reply(StatusOK, true, "OTP sent successfully.", None)
                  && db.otps == old(db.otps) + [IssuedOtp(|old(db.otps)| + 1, userId, email, mobile, draws, now, description)])
  {
    var code := GenerateOtp(draws);
    var expiresAt := now + OtpLifetime;
    var record := Otp(0, userId, email, mobile, code, expiresAt, false, false, description);
    if mobile != "" && !smsDelivered {
      reply := Failure(StatusInternalServerError, "Failed to send OTP to mobile!");
      return;
    }
    if email != "" && !emailDelivered {
      reply := Failure(StatusInternalServerError, "Failed to send OTP to email!");
      return;
    }
    var created := db.CreateOtp(record);
    reply := Reply(StatusOK, true, "OTP sent successfully.", None);
  }

  /** SendOTP: only an active user whose channel is not yet verified is
      sent a verification code. */
  method SendOtp(db: Database, email: string, mobile: string, draws: seq<int>,
                 smsDelivered: bool, emailDelivered: bool, now: Time)
    returns (reply: Reply<()>)
    requires db.Valid() && IsOtpDraw(draws)
    modifies db`otps
    ensures db.Valid()
    ensures var ch := ChannelOf(email, mobile);
            var found := FindUser(old(db.users), ActiveUserBy(ch));
            var failure := DispatchFailure(email, mobile, smsDelivered, emailDelivered);
            && (found.None? ==>
                  reply == Failure(StatusUnauthorized, if email != "" then "Invalid email!" else "Invalid mobile!"))
            && (found.Some? && ChannelVerified(old(db.users)[found.value], ch) ==>
                  reply == Failure(StatusUnauthorized,
                                   if email != "" then "Email already verified!" else "Mobile already verified!"))
            && (found.Some? && !ChannelVerified(old(db.users)[found.value], ch) && failure.Some? ==>
                  reply == Failure(StatusInternalServerError, failure.value))
            && (reply.success <==>
                  found.Some? && !ChannelVerified(old(db.users)[found.value], ch) && failure.None?)
            && (reply.success ==>
                  reply == Reply(StatusOK, true, "OTP sent successfully.", None)
                  && db.otps == old(db.otps) + [IssuedOtp(|old(db.otps)| + 1, old(db.users)[found.value].id,
                                                          email, mobile, draws, now, VerificationPurpose)])
    ensures !reply.success ==> db.otps == old(db.otps)
  {
    var found: Option<nat>;
    if email != "" {
      found := FindUser(db.users, ActiveEmail(email));
      if found.None? {
        reply := Failure(StatusUnauthorized, "Invalid email!");
        return;
      }
      if db.users[found.value].isEmailVerified {
        reply := Failure(StatusUnauthorized, "Email already verified!");
        return;
      }
    } else {
      found := FindUser(db.users, ActiveMobile(mobile));
      if found.None? {
        reply := Failure(StatusUnauthorized, "Invalid mobile!");
        return;
      }
      if db.users[found.value].isMobileVerified {
        reply := Failure(StatusUnauthorized, "Mobile already verified!");
        return;
      }
    }
    reply := IssueOtp(db, db.users[found.value].id, email, mobile, draws, smsDelivered, emailDelivered,
                      now, VerificationPurpose);
  }

  /** ForgotPasswordSendOTP: any active user is sent a code, verified or
      not. */
  method ForgotPasswordSendOtp(db: Database, email: string, mobile: string, draws: seq<int>,
                               smsDelivered: bool, emailDelivered: bool, now: Time)
    returns (reply: Reply<()>)
    requires db.Valid() && IsOtpDraw(draws)
    modifies db`otps
    ensures db.Valid()
    ensures var ch := ChannelOf(email, mobile);
            var found := FindUser(old(db.users), ActiveUserBy(ch));
            var failure := DispatchFailure(email, mobile, smsDelivered, emailDelivered);
            && (found.None? ==>
                  reply == Failure(StatusUnauthorized,
                                   if email != "" then "Invalid email credentials!" else "Invalid mobile credentials!"))
            && (found.Some? && failure.Some? ==> reply == Failure(StatusInternalServerError, failure.value))
            && (reply.success <==> found.Some? && failure.None?)
            && (reply.success ==>
                  reply == Reply(StatusOK, true, "OTP sent successfully.", None)
                  && db.otps == old(db.otps) + [IssuedOtp(|old(db.otps)| + 1, old(db.users)[found.value].id,
                                                          email, mobile, draws, now, ForgotPasswordPurpose)])
    ensures !reply.success ==> db.otps == old(db.otps)
  {
    var found: Option<nat>;
    if email != "" {
      found := FindUser(db.users, ActiveEmail(email));
      if found.None? {
        reply := Failure(StatusUnauthorized, "Invalid email credentials!");
        return;
      }
    } else {
      found := FindUser(db.users, ActiveMobile(mobile));
      if found.None? {
        reply := Failure(StatusUnauthorized, "Invalid mobile credentials!");
        return;
      }
    }
    reply := IssueOtp(db, db.users[found.value].id, email, mobile, draws, smsDelivered, emailDelivered,
                      now, ForgotPasswordPurpose);
  }

  /** The lookups both verify handlers share, as the handler makes them. */
  method LoadChallenge(db: Database, email: string, mobile: string, code: string, now: Time)
    returns (c: Challenge)
    ensures c == LocateChallenge(db.users, db.otps, ChannelOf(email, mobile), code, now)
  {
    var found: Option<nat>;
    var record: Option<nat>;
    if email != "" {
      found := FindUser(db.users, ActiveEmail(email));
      if found.None? {
        return UnknownUser;
      }
      record := FindOtp(db.otps, ByEmail(email), code);
      if record.None? {
        return NoMatchingCode(found.value);
      }
    } else {
      found := FindUser(db.users, ActiveMobile(mobile));
      if found.None? {
        return UnknownUser;
      }
      record := FindOtp(db.otps, ByMobile(mobile), code);
      if record.None? {
        return NoMatchingCode(found.value);
      }
    }
    if db.otps[record.value].expiresAt < now {
      return ExpiredCode(found.value, record.value);
    }
    return LiveCode(found.value, record.value);
  }

  /** VerifyOTP: a live code is marked used and verifies its channel; an
      unknown user, an unknown or used code and an expired code change
      nothing. */
  method VerifyOtp(db: Database, email: string, mobile: string, code: string, now: Time)
    returns (reply: Reply<()>)
    requires db.Valid()
    modifies db`users, db`otps
    ensures db.Valid()
    ensures var ch := ChannelOf(email, mobile);
            var c := LocateChallenge(old(db.users), old(db.otps), ch, code, now);
            && (c.UnknownUser? ==> reply == Failure(StatusUnauthorized, "User not found!"))
            && (c.NoMatchingCode? ==> reply == Failure(StatusUnauthorized, "Invalid OTP or OTP expired!"))
            && (c.ExpiredCode? ==> reply == Failure(StatusUnauthorized, "OTP has expired!"))
            && (!c.LiveCode? ==> db.users == old(db.users) && db.otps == old(db.otps))
            && (c.LiveCode? ==>
                  && reply == Reply(StatusOK, true, "OTP verified successfully!", None)
                  && db.otps == old(db.otps)[c.otpIndex := old(db.otps)[c.otpIndex].(isUsed := true)]
                  && db.users == old(db.users)[c.userIndex := MarkVerified(old(db.users)[c.userIndex], ch)])
  {
    var c := LoadChallenge(db, email, mobile, code, now);
    match c {
      case UnknownUser =>
        reply := Failure(StatusUnauthorized, "User not found!");
      case NoMatchingCode(_) =>
        reply := Failure(StatusUnauthorized, "Invalid OTP or OTP expired!");
      case ExpiredCode(_, _) =>
        reply := Failure(StatusUnauthorized, "OTP has expired!");
      case LiveCode(i, j) =>
        var record := db.otps[j].(isUsed := true);
        db.SaveOtp(record);
        var user := db.users[i];
        if email != "" {
          user := user.(isEmailVerified := true);
        } else {
          user := user.(isMobileVerified := true);
        }
        db.SaveUser(user);
        reply := Reply(StatusOK, true, "OTP verified successfully!", None);
    }
  }

  /** ForgotPasswordVerifyOTP: a live code is marked used and buys a token
      for the user; the code stays used even when signing fails. */
  method ForgotPasswordVerifyOtp(db: Database, email: string, mobile: string, code: string,
                                 sign: Claims -> Option<string>, now: Time)
    returns (reply: Reply<string>)
    requires db.Valid()
    modifies db`otps
    ensures db.Valid()
    ensures var c := LocateChallenge(old(db.users), old(db.otps), ChannelOf(email, mobile), code, now);
            && (c.UnknownUser? ==> reply == Failure(StatusUnauthorized, "User not found!"))
            && (c.NoMatchingCode? ==> reply == Failure(StatusUnauthorized, "Invalid OTP or OTP expired!"))
            && (c.ExpiredCode? ==> reply == Failure(StatusUnauthorized, "OTP has expired!"))
            && (!c.LiveCode? ==> db.otps == old(db.otps))
            && (c.LiveCode? ==>
                  var u := old(db.users)[c.userIndex];
                  && db.otps == old(db.otps)[c.otpIndex := old(db.otps)[c.otpIndex].(isUsed := true)]
                  && (sign(NewClaims(u.id, u.name, now)).None? ==>
                        reply == Failure(StatusInternalServerError, "Error generating JWT token!"))
                  && (sign(NewClaims(u.id, u.name, now)).Some? ==>
                        reply == Reply(StatusOK, true, "Now You can reset your password.",
                                       sign(NewClaims(u.id, u.name, now)))))
  {
    var c := LoadChallenge(db, email, mobile, code, now);
    match c {
      case UnknownUser =>
        reply := Failure(StatusUnauthorized, "User not found!");
      case NoMatchingCode(_) =>
        reply := Failure(StatusUnauthorized, "Invalid OTP or OTP expired!");
      case ExpiredCode(_, _) =>
        reply := Failure(StatusUnauthorized, "OTP has expired!");
      case LiveCode(i, j) =>
        var record := db.otps[j].(isUsed := true);
        db.SaveOtp(record);
        var user := db.users[i];
        var token := sign(NewClaims(user.id, user.name, now));
        if token.None? {
          reply := Failure(StatusInternalServerError, "Error generating JWT token!");
          return;
        }
        reply := Reply(StatusOK, true, "Now You can reset your password.", token);
    }
  }

  /** ResetPassword: the caller's active row gets the new password's hash,
      and nothing else changes. */
  method ResetPassword(db: Database, userId: nat, password: string, hash: string -> Option<string>)
    returns (reply: Reply<()>)
    requires db.Valid()
    modifies db`users
    ensures db.Valid()
    ensures var found := FindUser(old(db.users), ActiveId(userId));
            && (found.None? ==> reply == Failure(StatusUnauthorized, "User not found or invalid credentials!"))
            && (found.Some? && hash(password).None? ==>
                  reply == Failure(StatusInternalServerError, "Failed to hash password!"))
            && (reply.success <==> found.Some? && hash(password).Some?)
            && (reply.success ==>
                  reply == Reply(StatusOK, true, "Password reset successfully.", None)
                  && db.users == old(db.users)[found.value := old(db.users)[found.value].(password := hash(password).value)])
    ensures !reply.success ==> db.users == old(db.users)
  {
    var found := FindUser(db.users, ActiveId(userId));
    if found.None? {
      reply := Failure(StatusUnauthorized, "User not found or invalid credentials!");
      return;
    }
    var user := db.users[found.value];
    var hashed := hash(password);
    if hashed.None? {
      reply := Failure(StatusInternalServerError, "Failed to hash password!");
      return;
    }
    user := user.(password := hashed.value);
    db.SaveUser(user);
    reply := Reply(StatusOK, true, "Password reset successfully.", None);
  }
}
