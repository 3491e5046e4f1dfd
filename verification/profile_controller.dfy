/** AddBankAccount of controllers/userControllers/userProfile.go, and the
    store checks SendAdharOtp makes before it calls the Aadhaar service.
    The caller's user id, which the handlers read from the request context,
    is a parameter. */
module ProfileController {
  import opened Common
  import opened Models
  import opened Store

  /** Every user row's bank link names an existing bank row that belongs to
      that user. */
  ghost predicate BankLinksValid(users: seq<User>, banks: seq<BankDetails>)
  {
    forall i :: 0 <= i < |users| && users[i].bankDetails != 0 ==>
      users[i].bankDetails <= |banks| && banks[users[i].bankDetails - 1].userId == users[i].id
  }

  /** No two bank rows share an account number. */
  ghost predicate DistinctAccounts(banks: seq<BankDetails>)
  {
    forall i, j :: 0 <= i < j < |banks| ==> banks[i].accountNo != banks[j].accountNo
  }

  /** The column default of account_type, which gorm's Create applies to a
      zero value. */
  const DefaultAccountType: string := "savings"

  /** The bank row a request creates for a user. */
  function NewBank(id: nat, req: BankRequest, userId: nat): (b: BankDetails)
    ensures b.userId == userId && b.id == id
    ensures b.bankName == req.bankName && b.accountNo == req.accountNo && b.holderName == req.holderName
    ensures b.ifscCode == req.ifscCode && b.branchName == req.branchName
    ensures req.accountType != "" ==> b.accountType == req.accountType
    ensures req.accountType == "" ==> b.accountType == DefaultAccountType
  {
    var accountType := if req.accountType == "" then DefaultAccountType else req.accountType;
    BankDetails(id, req.bankName, req.accountNo, req.holderName, req.ifscCode, req.branchName, accountType, userId)
  }

  method AddBankAccount(db: Database, userId: nat, req: BankRequest) returns (reply: Reply<BankDetails>)
    requires db.Valid()
    modifies db`users, db`banks
    ensures db.Valid()
    ensures var found := FindUser(old(db.users), ActiveId(userId));
            && (found.None? ==> reply == Failure(StatusInternalServerError, "Failed to fetch user!"))
            && (found.Some? && old(db.users)[found.value].bankDetails != 0 ==>
                  reply == Failure(StatusConflict, "You already have a bank account!"))
            && (found.Some? && old(db.users)[found.value].bankDetails == 0
                && FindBank(old(db.banks), req.accountNo).Some? ==>
                  reply == Failure(StatusConflict, "Bank account already exists!"))
            && (reply.success <==>
                  found.Some? && old(db.users)[found.value].bankDetails == 0
                  && FindBank(old(db.banks), req.accountNo).None?)
            && (reply.success ==>
                  var created := NewBank(|old(db.banks)| + 1, req, userId);
                  && db.banks == old(db.banks) + [created]
                  && db.users == old(db.users)[found.value := old(db.users)[found.value].(bankDetails := created.id)]
                  && reply == Reply(StatusOK, true, "Bank account added successfully.", Some(created)))
    ensures !reply.success ==> db.users == old(db.users) && db.banks == old(db.banks)
    ensures BankLinksValid(old(db.users), old(db.banks)) ==> BankLinksValid(db.users, db.banks)
    ensures DistinctAccounts(old(db.banks)) ==> DistinctAccounts(db.banks)
  {
    var found := FindUser(db.users, ActiveId(userId));
    if found.None? {
      reply := Failure(StatusInternalServerError, "Failed to fetch user!");
      return;
    }
    var user := db.users[found.value];
    if user.bankDetails != 0 {
      reply := Failure(StatusConflict, "You already have a bank account!");
      return;
    }
    if FindBank(db.banks, req.accountNo).Some? {
      reply := Failure(StatusConflict, "Bank account already exists!");
      return;
    }
    ghost var users0, banks0 := db.users, db.banks;
    var record := NewBank(0, req, userId);
    var created := db.CreateBank(record);
    user := user.(bankDetails := created.id);
    db.SaveUser(user);
    assert forall j :: 0 <= j < |banks0| ==> banks0[j].accountNo != req.accountNo;
    LinkKeepsLinksValid(users0, banks0, found.value, created);
    reply := Reply(StatusOK, true, "Bank account added successfully.", Some(created));
  }

  /** Appending a user's bank row and linking that user to it keeps every
      link valid. */
  lemma LinkKeepsLinksValid(users: seq<User>, banks: seq<BankDetails>, i: nat, b: BankDetails)
    requires i < |users| && b.id == |banks| + 1 && b.userId == users[i].id
    ensures BankLinksValid(users, banks) ==>
              BankLinksValid(users[i := users[i].(bankDetails := b.id)], banks + [b])
  {
    var users' := users[i := users[i].(bankDetails := b.id)];
    var banks' := banks + [b];
    if BankLinksValid(users, banks) {
      forall k | 0 <= k < |users'| && users'[k].bankDetails != 0
        ensures users'[k].bankDetails <= |banks'| && banks'[users'[k].bankDetails - 1].userId == users'[k].id
      {
        if k != i {
          assert banks'[users[k].bankDetails - 1] == banks[users[k].bankDetails - 1];
        }
      }
    }
  }

  /** SendAdharOtp up to the outgoing request: None means the request to
      the Aadhaar service would be made. */
  method AadhaarPrecheck(db: Database, userId: nat, aadhaarNumber: string) returns (r: Option<Reply<()>>)
    ensures FindUser(db.users, ActiveId(userId)).None? ==> r == Some(Failure(StatusNotFound, "User not found!"))
    ensures FindUser(db.users, ActiveId(userId)).Some? && userId in db.kycOwners ==>
              r == Some(Failure(StatusConflict, "Your KYC record already exists!"))
    ensures FindUser(db.users, ActiveId(userId)).Some? && userId !in db.kycOwners && aadhaarNumber in db.aadhaarNumbers ==>
              r == Some(Failure(StatusConflict, "Aadhar number already exists!"))
    ensures r.None? <==>
              FindUser(db.users, ActiveId(userId)).Some? && userId !in db.kycOwners && aadhaarNumber !in db.aadhaarNumbers
  {
    if FindUser(db.users, ActiveId(userId)).None? {
      return Some(Failure(StatusNotFound, "User not found!"));
    }
    if userId in db.kycOwners {
      return Some(Failure(StatusConflict, "Your KYC record already exists!"));
    }
    if aadhaarNumber in db.aadhaarNumbers {
      return Some(Failure(StatusConflict, "Aadhar number already exists!"));
    }
    return None;
  }
}
