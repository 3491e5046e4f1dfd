/** The handlers of controllers/auth/user.auth.go: the same Signup as
    controllers/auth/auth.go except that the reply also drops the KYC
    association, and a Login with two request checks up front and no
    lockout. */
module AuthUserController {
  import opened Common
  import opened Models
  import opened Store
  import opened Jwt
  import opened Referral
  import opened Registration
  import opened Lockout
  import opened AuthController

  method Signup(db: Database, body: User, draws: seq<seq<int>>, hash: string -> Option<string>)
    returns (reply: Reply<User>)
    requires db.Valid()
    requires forall k :: 0 <= k < |draws| ==> IsDraw(draws[k])
    requires SignupConflict(db.users, body.email, body.mobile) == NoConflict ==>
               exists k :: 0 <= k < |draws| && !CodeInUse(db.users, Candidate(draws[k]))
    modifies db`users
    ensures db.Valid()
    ensures var c := SignupConflict(old(db.users), body.email, body.mobile);
            && (c == EmailTaken ==> reply == Failure(StatusConflict, "Email is already registered!"))
            && (c == MobileTaken ==> reply == Failure(StatusConflict, "Mobile number is already registered!"))
            && (c == NoConflict && hash(body.password).None? ==>
                  reply == Failure(StatusInternalServerError, "Failed to process your request!"))
            && (reply.success <==> c == NoConflict && hash(body.password).Some?)
    ensures !reply.success ==> db.users == old(db.users)
    ensures reply.success ==>
              && |db.users| == |old(db.users)| + 1 && db.users[..|old(db.users)|] == old(db.users)
              && var stored := db.users[|old(db.users)|];
              && stored == body.(id := |old(db.users)| + 1, referralCode := stored.referralCode,
                                 password := hash(body.password).value)
              && IsReferralCode(stored.referralCode)
              && !CodeInUse(old(db.users), stored.referralCode)
              && reply == Reply(StatusCreated, true, "User registered successfully.",
                                Some(stored.(password := "", kyc := None)))
    ensures UniqueContacts(old(db.users)) ==> UniqueContacts(db.users)
    ensures DistinctCodes(old(db.users)) ==> DistinctCodes(db.users)
  {
    if FindUser(db.users, EmailIs(body.email)).Some? {
      reply := Failure(StatusConflict, "Email is already registered!");
      return;
    }
    if FindUser(db.users, MobileIs(body.mobile)).Some? {
      reply := Failure(StatusConflict, "Mobile number is already registered!");
      return;
    }
    ghost var before := db.users;
    var created := Register(db, body, draws, hash);
    if created.None? {
      reply := Failure(StatusInternalServerError, "Failed to process your request!");
      return;
    }
    assert db.users[..|before|] == before;
    var view := created.value.(password := "");
    view := view.(kyc := None);
    reply := Reply(StatusCreated, true, "User registered successfully.", Some(view));
  }

  /** Login: a password and one of email or mobile number are required;
      then the row goes through Lockout.PlainAttempt and, on success, is
      saved with the new LastLogin. */
  method Login(db: Database, email: string, mobile: string, password: string,
               compare: (string, string) -> bool, sign: Claims -> Option<string>, now: Time)
    returns (reply: Reply<Session>)
    requires db.Valid()
    modifies db`users
    ensures db.Valid()
    ensures password == "" ==> reply == Failure(StatusBadRequest, "Password is required!")
    ensures password != "" && email == "" && mobile == "" ==>
              reply == Failure(StatusBadRequest, "Either email or mobile number is required!")
    ensures password == "" || (email == "" && mobile == "") ==> db.users == old(db.users)
    ensures password != "" && (email != "" || mobile != "") ==>
              var found := FindUser(old(db.users), ActiveUserBy(ChannelOf(email, mobile)));
              && (found.None? ==>
                    reply == Failure(StatusUnauthorized, "Invalid credentials!") && db.users == old(db.users))
              && (found.Some? ==>
                    var u := old(db.users)[found.value];
                    var r := PlainAttempt(u, compare(u.password, password), now);
                    db.users == old(db.users)[found.value := r.1]
                    && reply == LoginReply(r.0, r.1, sign, now, "Wrong password!"))
  {
    if password == "" {
      reply := Failure(StatusBadRequest, "Password is required!");
      return;
    }
    if email == "" && mobile == "" {
      reply := Failure(StatusBadRequest, "Either email or mobile number is required!");
      return;
    }
    var found: Option<nat>;
    if email != "" {
      found := FindUser(db.users, ActiveEmail(email));
    } else {
      found := FindUser(db.users, ActiveMobile(mobile));
    }
    if found.None? {
      reply := Failure(StatusUnauthorized, "Invalid credentials!");
      return;
    }
    var user := db.users[found.value];
    if !user.isEmailVerified {
      reply := Failure(StatusUnauthorized, "Email not verified!");
      return;
    }
    if !user.isMobileVerified {
      reply := Failure(StatusUnauthorized, "Mobile not verified!");
      return;
    }
    if !compare(user.password, password) {
      reply := Failure(StatusUnauthorized, "Wrong password!");
      return;
    }
    user := user.(lastLogin := now);
    db.SaveUser(user);
    var view := Sanitized(user);
    var token := sign(NewClaims(view.id, view.name, now));
    if token.None? {
      reply := Failure(StatusInternalServerError, "Error generating JWT token!");
      return;
    }
    reply := Reply(StatusOK, true, "Login successful.", Some(Session(view, token.value)));
  }
}
