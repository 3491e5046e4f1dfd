/** The database the handlers share (database.Database.Db): one sequence
    per table, rows in primary-key order. Create appends a row under the
    next auto-increment key; Save rewrites the row whose key the record
    carries. Writes never fail here. */
module Store {
  import opened Common
  import opened Models

  class Database {
    var users: seq<User>
    var otps: seq<Otp>
    var banks: seq<BankDetails>
    var kycOwners: seq<nat>              // user_id of each UserKYC row
    var aadhaarNumbers: seq<string>      // aadhar_number of each AadharDetails row

    /** Auto-increment keys: row i has primary key i + 1. */
    ghost predicate Valid()
      reads this
    {
      && (forall i :: 0 <= i < |users| ==> users[i].id == i + 1)
      && (forall i :: 0 <= i < |otps| ==> otps[i].id == i + 1)
      && (forall i :: 0 <= i < |banks| ==> banks[i].id == i + 1)
    }

    constructor ()
      ensures Valid()
      ensures users == [] && otps == [] && banks == [] && kycOwners == [] && aadhaarNumbers == []
    {
      users, otps, banks, kycOwners, aadhaarNumbers := [], [], [], [], [];
    }

    method CreateUser(u: User) returns (created: User)
      requires Valid()
      modifies this`users
      ensures Valid()
      ensures created == u.(id := |old(users)| + 1)
      ensures users == old(users) + [created]
    {
      created := u.(id := |users| + 1);
      users := users + [created];
    }

    method SaveUser(u: User)
      requires Valid() && 1 <= u.id <= |users|
      modifies this`users
      ensures Valid()
      ensures users == old(users)[u.id - 1 := u]
    {
      users := users[u.id - 1 := u];
    }

    method CreateOtp(o: Otp) returns (created: Otp)
      requires Valid()
      modifies this`otps
      ensures Valid()
      ensures created == o.(id := |old(otps)| + 1)
      ensures otps == old(otps) + [created]
    {
      created := o.(id := |otps| + 1);
      otps := otps + [created];
    }

    method SaveOtp(o: Otp)
      requires Valid() && 1 <= o.id <= |otps|
      modifies this`otps
      ensures Valid()
      ensures otps == old(otps)[o.id - 1 := o]
    {
      otps := otps[o.id - 1 := o];
    }

    method CreateBank(b: BankDetails) returns (created: BankDetails)
      requires Valid()
      modifies this`banks
      ensures Valid()
      ensures created == b.(id := |old(banks)| + 1)
      ensures banks == old(banks) + [created]
    {
      created := b.(id := |banks| + 1);
      banks := banks + [created];
    }
  }
}
