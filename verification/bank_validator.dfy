/** The AddBankAccount validator of validators/userValidator/userProfile.go:
    one map entry per failing field, the request let through exactly when
    the map stays empty. */
module BankValidator {
  import opened Common
  import opened Text
  import opened Models
  import opened Patterns

  const BankNameMessage: string := "Bank name must be at least 3 characters long!"
  const AccountLengthMessage: string := "Account number must be between 10 and 18 digits!"
  const AccountNumericMessage: string := "Account number must contain only numeric characters!"
  const HolderNameMessage: string := "Holder name must be at least 3 characters long!"
  const IfscMessage: string := "Invalid IFSC code! It must be 11 characters long and alphanumeric."
  const BranchNameMessage: string := "Branch name must be at least 3 characters long if provided!"
  const AccountTypeMessage: string := "Account type must be 'savings' or 'current'!"

  /** The account number's length rule: at least ten bytes once trimmed,
      at most eighteen as given. */
  predicate AccountLengthBad(accountNo: string)
  {
    ByteLen(TrimSpace(accountNo)) < 10 || ByteLen(accountNo) > 18
  }

  /** validAccountTypes[strings.ToLower(t)]. */
  predicate IsAccountType(t: string)
  {
    ToLower(t) == "savings" || ToLower(t) == "current"
  }

  /** What each check reports for its field: the message, or None when the
      field passes. */
  function BankNameError(req: BankRequest): Option<string>
  {
    if ByteLen(TrimSpace(req.bankName)) < 3 then Some(BankNameMessage) else None
  }

  /** The length message is given first; Atoi is consulted only when the
      length passes. */
  function AccountNoError(req: BankRequest): Option<string>
  {
    if AccountLengthBad(req.accountNo) then Some(AccountLengthMessage)
    else if !IsValidNumeric(req.accountNo) then Some(AccountNumericMessage)
    else None
  }

  function HolderNameError(req: BankRequest): Option<string>
  {
    if ByteLen(TrimSpace(req.holderName)) < 3 then Some(HolderNameMessage) else None
  }

  function IfscError(req: BankRequest): Option<string>
  {
    if ByteLen(TrimSpace(req.ifscCode)) != 11 || !IsValidIFSC(req.ifscCode) then Some(IfscMessage) else None
  }

  /** The branch name is optional: only a given one is checked. */
  function BranchNameError(req: BankRequest): Option<string>
  {
    if req.branchName != "" && ByteLen(TrimSpace(req.branchName)) < 3 then Some(BranchNameMessage) else None
  }

  /** The account type is optional: only a given one is checked. */
  function AccountTypeError(req: BankRequest): Option<string>
  {
    if req.accountType != "" && !IsAccountType(req.accountType) then Some(AccountTypeMessage) else None
  }

  /** Records a check's outcome under its key. */
  function Put(errors: map<string, string>, key: string, e: Option<string>): map<string, string>
  {
    if e.Some? then errors[key := e.value] else errors
  }

  /** The entry under a key, if any. */
  function Lookup(errors: map<string, string>, key: string): Option<string>
  {
    if key in errors then Some(errors[key]) else None
  }

  /** Six outcomes recorded under six distinct keys: each key holds its own
      check's outcome and nothing else is in the map. */
  lemma PutSix(a: Option<string>, b: Option<string>, c: Option<string>,
               d: Option<string>, e: Option<string>, f: Option<string>)
    ensures var m := Put(Put(Put(Put(Put(Put(map[], "bankName", a), "accountNo", b), "holderName", c),
                                 "ifscCode", d), "branchName", e), "accountType", f);
      && m.Keys <= {"bankName", "accountNo", "holderName", "ifscCode", "branchName", "accountType"}
      && Lookup(m, "bankName") == a && Lookup(m, "accountNo") == b && Lookup(m, "holderName") == c
      && Lookup(m, "ifscCode") == d && Lookup(m, "branchName") == e && Lookup(m, "accountType") == f
      && (|m| == 0 <==> a.None? && b.None? && c.None? && d.None? && e.None? && f.None?)
  {
    var m := Put(Put(Put(Put(Put(Put(map[], "bankName", a), "accountNo", b), "holderName", c),
                         "ifscCode", d), "branchName", e), "accountType", f);
    if a.Some? { assert "bankName" in m.Keys; }
    if b.Some? { assert "accountNo" in m.Keys; }
    if c.Some? { assert "holderName" in m.Keys; }
    if d.Some? { assert "ifscCode" in m.Keys; }
    if e.Some? { assert "branchName" in m.Keys; }
    if f.Some? { assert "accountType" in m.Keys; }
  }

  /** The validator: the map of failing fields, and whether the request
      goes on to the handler. Each field's entry is its own check's
      outcome, whatever the other fields hold. */
  method AddBankAccount(req: BankRequest) returns (errors: map<string, string>, proceed: bool)
    ensures errors.Keys <= {"bankName", "accountNo", "holderName", "ifscCode", "branchName", "accountType"}
    ensures Lookup(errors, "bankName") == BankNameError(req)
    ensures Lookup(errors, "accountNo") == AccountNoError(req)
    ensures Lookup(errors, "holderName") == HolderNameError(req)
    ensures Lookup(errors, "ifscCode") == IfscError(req)
    ensures Lookup(errors, "branchName") == BranchNameError(req)
    ensures Lookup(errors, "accountType") == AccountTypeError(req)
    ensures proceed <==> |errors| == 0
    ensures proceed <==> BankRequestValid(req)
    // each rule in terms of the request
    ensures "bankName" in errors <==> ByteLen(TrimSpace(req.bankName)) < 3
    ensures "holderName" in errors <==> ByteLen(TrimSpace(req.holderName)) < 3
    ensures "branchName" in errors <==> req.branchName != "" && ByteLen(TrimSpace(req.branchName)) < 3
    ensures "ifscCode" in errors <==> !IsValidIFSC(req.ifscCode)
    ensures "accountType" in errors <==> req.accountType != "" && !IsAccountType(req.accountType)
    ensures "accountNo" in errors <==> AccountLengthBad(req.accountNo) || !IsValidNumeric(req.accountNo)
  {
    errors := map[];
    var bankName := BankNameError(req);
    if bankName.Some? {
      errors := errors["bankName" := bankName.value];
    }
    var accountNo := AccountNoError(req);
    if accountNo.Some? {
      errors := errors["accountNo" := accountNo.value];
    }
    var holderName := HolderNameError(req);
    if holderName.Some? {
      errors := errors["holderName" := holderName.value];
    }
    var ifscCode := IfscError(req);
    if ifscCode.Some? {
      errors := errors["ifscCode" := ifscCode.value];
    }
    var branchName := BranchNameError(req);
    if branchName.Some? {
      errors := errors["branchName" := branchName.value];
    }
    var accountType := AccountTypeError(req);
    if accountType.Some? {
      errors := errors["accountType" := accountType.value];
    }
    PutSix(BankNameError(req), AccountNoError(req), HolderNameError(req),
           IfscError(req), BranchNameError(req), AccountTypeError(req));
    IfscRule(req);
    proceed := |errors| == 0;
  }

  /** The request passes every check. */
  predicate BankRequestValid(req: BankRequest)
  {
    && BankNameError(req).None? && AccountNoError(req).None? && HolderNameError(req).None?
    && IfscError(req).None? && BranchNameError(req).None? && AccountTypeError(req).None?
  }

  /** The IFSC length check adds nothing to the pattern: the IFSC entry is
      there exactly when the pattern does not match. */
  lemma IfscRule(req: BankRequest)
    ensures IfscError(req).Some? <==> !IsValidIFSC(req.ifscCode)
  {
    if IsValidIFSC(req.ifscCode) {
      IfscLengthImplied(req.ifscCode);
    }
  }

  /** The account number rule: a bad length gets the length message; of an
      account number of acceptable length Atoi asks only for an optional
      sign followed by digits, since eighteen digits never overflow. */
  lemma AccountNumberRule(req: BankRequest)
    ensures AccountLengthBad(req.accountNo) ==> AccountNoError(req) == Some(AccountLengthMessage)
    ensures !AccountLengthBad(req.accountNo) ==>
              (AccountNoError(req).Some? <==> !(|Unsigned(req.accountNo)| > 0 && AllDigits(Unsigned(req.accountNo))))
    ensures !AccountLengthBad(req.accountNo) && AccountNoError(req).Some? ==>
              AccountNoError(req) == Some(AccountNumericMessage)
  {
    if ByteLen(req.accountNo) <= 18 {
      ShortNumericNeverOverflows(req.accountNo);
    }
  }

  /** A string lowers to a word exactly when it lowers to it character by
      character. */
  lemma LowersTo(t: string, w: string)
    requires |t| == |w|
    requires forall k :: 0 <= k < |t| ==> LowerChar(t[k]) == w[k]
    ensures ToLower(t) == w
  {
  }

  /** The lower-casing lets any capitalisation through, and the two
      characters outside ASCII whose lower case is ASCII as well. */
  lemma AccountTypeIgnoresCase()
    ensures IsAccountType("SAVINGS") && IsAccountType("Current")
    ensures IsAccountType("SAV\U{0130}NGS")
    ensures !IsAccountType("saving")
  {
    LowersTo("SAVINGS", "savings");
    LowersTo("Current", "current");
    LowersTo("SAV\U{0130}NGS", "savings");
    assert |ToLower("saving")| == 6;
  }
}
