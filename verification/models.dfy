/** The records the controllers read and write, and the store queries they
    issue. The user record carries every column the controllers use (the
    struct in models/user.model.go lacks most of them). A table is a
    sequence in primary-key order, so gorm's `First`, which returns the
    matching row with the lowest primary key, is the lowest matching index. */
module Models {
  import opened Common

  datatype User = User(
    id: nat,
    name: string,
    email: string,
    mobile: string,
    role: string,
    password: string,              // the bcrypt hash once stored
    profileImage: string,
    referralCode: string,
    isEmailVerified: bool,
    isMobileVerified: bool,
    failedLoginAttempts: nat,
    lastFailedLogin: Option<Time>,
    isBlocked: bool,
    blockedUntil: Option<Time>,
    lastLogin: Time,
    isDeleted: bool,
    bankDetails: nat,              // id of the linked bank record, 0 for none
    kyc: Option<nat>)              // the UserKYC association, None when zero-valued

  datatype Otp = Otp(
    id: nat,
    userId: nat,
    email: string,
    mobile: string,
    code: string,
    expiresAt: Time,
    isUsed: bool,
    isDeleted: bool,
    description: string)

  datatype BankDetails = BankDetails(
    id: nat,
    bankName: string,
    accountNo: string,
    holderName: string,
    ifscCode: string,
    branchName: string,
    accountType: string,
    userId: nat)

  /** The body of an add-bank-account request. */
  datatype BankRequest = BankRequest(
    bankName: string,
    accountNo: string,
    holderName: string,
    ifscCode: string,
    branchName: string,
    accountType: string)

  /** The row as Login hands it back: hash and profile image blanked. */
  function Sanitized(u: User): (v: User)
    ensures v.password == "" && v.profileImage == ""
    ensures v.(password := u.password, profileImage := u.profileImage) == u
  {
    u.(password := "", profileImage := "")
  }

  /** A user row with every column at its zero value: `&models.User{}`. */
  const ZeroUser: User := User(0, "", "", "", "", "", "", "", false, false, 0, None, false, None, 0, false, 0, None)

  /** The validated columns a JSON request body may carry (the struct has no
      json tags, so a key names a field case-insensitively): a key the body
      leaves out is None. */
  datatype UserPatch = UserPatch(
    name: Option<string>,
    email: Option<string>,
    mobile: Option<string>,
    password: Option<string>)

  /** BodyParser into an existing struct (json.Unmarshal): a key the body
      carries overwrites the field, a key it leaves out keeps the value the
      struct already held. */
  function Merge(model: User, patch: UserPatch): (m: User)
    ensures m.name == (if patch.name.Some? then patch.name.value else model.name)
    ensures m.email == (if patch.email.Some? then patch.email.value else model.email)
    ensures m.mobile == (if patch.mobile.Some? then patch.mobile.value else model.mobile)
    ensures m.password == (if patch.password.Some? then patch.password.value else model.password)
    ensures m.(name := model.name, email := model.email, mobile := model.mobile, password := model.password) == model
  {
    model.(name := if patch.name.Some? then patch.name.value else model.name,
           email := if patch.email.Some? then patch.email.value else model.email,
           mobile := if patch.mobile.Some? then patch.mobile.value else model.mobile,
           password := if patch.password.Some? then patch.password.value else model.password)
  }

  /** A successful login's payload: the user row and the signed token. */
  datatype Session = Session(user: User, token: string)

  /** gorm's `First`: the index of the first element satisfying `p`. */
  function First<T>(s: seq<T>, p: T -> bool): (r: Option<nat>)
    ensures r.Some? ==> r.value < |s| && p(s[r.value]) && forall j :: 0 <= j < r.value ==> !p(s[j])
    ensures r.None? ==> forall j :: 0 <= j < |s| ==> !p(s[j])
  {
    if s == [] then None
    else if p(s[0]) then Some(0)
    else match First(s[1..], p)
      case None => None
      case Some(k) => Some(k + 1)
  }

  /** Two tables that agree, row by row, on what the query tests give the
      same answer. */
  lemma {:induction false} FirstPointwise<T>(s: seq<T>, t: seq<T>, p: T -> bool)
    requires |s| == |t|
    requires forall j :: 0 <= j < |s| ==> p(s[j]) == p(t[j])
    ensures First(s, p) == First(t, p)
  {
    if s != [] && !p(s[0]) {
      FirstPointwise(s[1..], t[1..], p);
    }
  }

  /** Appending a row changes the answer only when nothing matched before. */
  lemma {:induction false} FirstAppend<T>(s: seq<T>, x: T, p: T -> bool)
    ensures First(s + [x], p) ==
      if First(s, p).Some? then First(s, p) else if p(x) then Some(|s|) else None
  {
    if s != [] && !p(s[0]) {
      FirstAppend(s[1..], x, p);
      assert (s + [x])[1..] == s[1..] + [x];
    }
  }

  /** The `Where(...)` clauses on the user table. */
  datatype UserQuery =
    | EmailIs(email: string)              // "email = ?"
    | MobileIs(mobile: string)            // "mobile = ?"
    | ActiveEmail(email: string)          // "email = ? AND is_deleted = ?", false
    | ActiveMobile(mobile: string)        // "mobile = ? AND is_deleted = ?", false
    | ActiveId(id: nat)                   // "id = ? AND is_deleted = ?", false
    | FirstNameIs(name: string)           // "first_name = ?"
    | ReferralCodeIs(code: string)        // "referral_code = ?"

  predicate Matches(u: User, q: UserQuery)
  {
    match q
    case EmailIs(e) => u.email == e
    case MobileIs(m) => u.mobile == m
    case ActiveEmail(e) => u.email == e && !u.isDeleted
    case ActiveMobile(m) => u.mobile == m && !u.isDeleted
    case ActiveId(id) => u.id == id && !u.isDeleted
    case FirstNameIs(n) => u.name == n
    case ReferralCodeIs(c) => u.referralCode == c
  }

  /** Index of the user row `First` loads for the query. */
  function FindUser(users: seq<User>, q: UserQuery): (r: Option<nat>)
    ensures r.Some? ==> r.value < |users| && Matches(users[r.value], q)
                        && forall j :: 0 <= j < r.value ==> !Matches(users[j], q)
    ensures r.None? ==> forall j :: 0 <= j < |users| ==> !Matches(users[j], q)
  {
    First(users, u => Matches(u, q))
  }

  /** Changes that leave every column the query tests alone do not change
      which row the query loads. */
  lemma SameQueryColumns(users: seq<User>, i: nat, u: User, q: UserQuery)
    requires i < |users|
    requires u.email == users[i].email && u.mobile == users[i].mobile && u.isDeleted == users[i].isDeleted
    requires u.id == users[i].id && u.name == users[i].name && u.referralCode == users[i].referralCode
    ensures FindUser(users[i := u], q) == FindUser(users, q)
  {
    FirstPointwise(users, users[i := u], u => Matches(u, q));
  }

  /** The identity channel a request addresses: the email when one is
      given, the mobile number otherwise. */
  datatype Channel = ByEmail(email: string) | ByMobile(mobile: string)

  function ChannelOf(email: string, mobile: string): (ch: Channel)
    ensures ch.ByEmail? <==> email != ""
  {
    if email != "" then ByEmail(email) else ByMobile(mobile)
  }

  /** The active-user query for a channel. */
  function ActiveUserBy(ch: Channel): UserQuery
  {
    match ch
    case ByEmail(e) => ActiveEmail(e)
    case ByMobile(m) => ActiveMobile(m)
  }

  /** "email|mobile = ? AND code = ? AND is_used = ? AND is_deleted = ?",
      with false for both flags. */
  predicate Redeemable(o: Otp, ch: Channel, code: string)
  {
    (match ch
     case ByEmail(e) => o.email == e
     case ByMobile(m) => o.mobile == m)
    && o.code == code && !o.isUsed && !o.isDeleted
  }

  function FindOtp(otps: seq<Otp>, ch: Channel, code: string): (r: Option<nat>)
    ensures r.Some? ==> r.value < |otps| && Redeemable(otps[r.value], ch, code)
                        && forall j :: 0 <= j < r.value ==> !Redeemable(otps[j], ch, code)
    ensures r.None? ==> forall j :: 0 <= j < |otps| ==> !Redeemable(otps[j], ch, code)
  {
    First(otps, o => Redeemable(o, ch, code))
  }

  /** "account_no = ?" on the bank table. */
  function FindBank(banks: seq<BankDetails>, accountNo: string): (r: Option<nat>)
    ensures r.Some? <==> exists j :: 0 <= j < |banks| && banks[j].accountNo == accountNo
  {
    First(banks, (b: BankDetails) => b.accountNo == accountNo)
  }
}
