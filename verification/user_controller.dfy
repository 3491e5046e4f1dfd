/** The handlers of controllers/userControllers/user.auth.go: a Signup whose
    referral code is a single draw, never checked against the table, and a
    LoginUser by first name that reads the store without writing it. */
module UserController {
  import opened Common
  import opened Models
  import opened Store
  import opened Jwt
  import opened Referral
  import opened Registration

  method Signup(db: Database, body: User, draw: seq<int>, hash: string -> Option<string>)
    returns (reply: Reply<User>)
    requires db.Valid() && IsDraw(draw)
    modifies db`users
    ensures db.Valid()
    ensures var c := SignupConflict(old(db.users), body.email, body.mobile);
            && (c == EmailTaken ==> reply == Failure(StatusConflict, "Email is already registered"))
            && (c == MobileTaken ==> reply == Failure(StatusConflict, "Mobile number is already registered"))
            && (c == NoConflict && hash(body.password).None? ==>
                  reply == Failure(StatusInternalServerError, "Failed to process your request"))
            && (reply.success <==> c == NoConflict && hash(body.password).Some?)
    ensures !reply.success ==> db.users == old(db.users)
    ensures reply.success ==>
              var stored := body.(id := |old(db.users)| + 1, referralCode := Candidate(draw),
                                  password := hash(body.password).value);
              && db.users == old(db.users) + [stored]
              && reply == Reply(StatusCreated, true, "User created successfully", Some(stored.(password := "")))
    ensures UniqueContacts(old(db.users)) ==> UniqueContacts(db.users)
  {
    if FindUser(db.users, EmailIs(body.email)).Some? {
      reply := Failure(StatusConflict, "Email is already registered");
      return;
    }
    if FindUser(db.users, MobileIs(body.mobile)).Some? {
      reply := Failure(StatusConflict, "Mobile number is already registered");
      return;
    }
    var code := DrawCode(draw);
    var hashed := hash(body.password);
    if hashed.None? {
      reply := Failure(StatusInternalServerError, "Failed to process your request");
      return;
    }
    ghost var before := db.users;
    var created := db.CreateUser(body.(referralCode := code, password := hashed.value));
    if UniqueContacts(before) {
      NoConflictKeepsUnique(before, created);
    }
    reply := Reply(StatusCreated, true, "User created successfully", Some(created.(password := "")));
  }

  /** Without the retry loop nothing keeps referral codes apart: a draw that
      spells a code some row holds is stored all the same. */
  lemma UncheckedCodeCanRepeat(users: seq<User>, body: User, draw: seq<int>, h: string, j: nat)
    requires IsDraw(draw) && j < |users| && users[j].referralCode == Candidate(draw)
    ensures !DistinctCodes(users + [body.(id := |users| + 1, referralCode := Candidate(draw), password := h)])
  {
    var all := users + [body.(id := |users| + 1, referralCode := Candidate(draw), password := h)];
    assert all[j].referralCode == all[|users|].referralCode;
  }

  /** LoginUser: first name and password are required; the first row with
      that first name must carry a matching hash. An unknown name and a
      wrong password get the same reply. The row comes back as stored,
      hash included. */
  method LoginUser(db: Database, name: string, password: string,
                   compare: (string, string) -> bool, sign: Claims -> Option<string>, now: Time)
    returns (reply: Reply<Session>)
    ensures name == "" || password == "" ==>
              reply == Failure(StatusBadRequest, "First name and password are required")
    ensures name != "" && password != "" ==>
              var found := FindUser(db.users, FirstNameIs(name));
              && (found.None? || !compare(db.users[found.value].password, password) ==>
                    reply == Failure(StatusUnauthorized, "Invalid credentials"))
              && (found.Some? && compare(db.users[found.value].password, password) ==>
                    var u := db.users[found.value];
                    && (sign(NewClaims(u.id, u.name, now)).None? ==>
                          reply == Failure(StatusInternalServerError, "Error generating JWT token"))
                    && (sign(NewClaims(u.id, u.name, now)).Some? ==>
                          reply == Reply(StatusOK, true, "Login successful",
                                         Some(Session(u, sign(NewClaims(u.id, u.name, now)).value)))))
    ensures reply.success ==> reply.data.Some? && reply.data.value.user.name == name
    ensures reply.status == StatusUnauthorized ==> reply == Failure(StatusUnauthorized, "Invalid credentials")
  {
    if name == "" || password == "" {
      reply := Failure(StatusBadRequest, "First name and password are required");
      return;
    }
    var found := FindUser(db.users, FirstNameIs(name));
    if found.None? {
      reply := Failure(StatusUnauthorized, "Invalid credentials");
      return;
    }
    var user := db.users[found.value];
    if !compare(user.password, password) {
      reply := Failure(StatusUnauthorized, "Invalid credentials");
      return;
    }
    var token := sign(NewClaims(user.id, user.name, now));
    if token.None? {
      reply := Failure(StatusInternalServerError, "Error generating JWT token");
      return;
    }
    reply := Reply(StatusOK, true, "Login successful", Some(Session(user, token.value)));
  }
}
