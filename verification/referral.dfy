/** generateReferralCode: six symbols drawn from a 36-symbol alphabet into a
    byte buffer (controllers/userControllers/user.auth.go stops there), and
    the retry loop of controllers/auth/auth.go and controllers/auth/user.auth.go
    that draws again until no user row, deleted or not, holds the code.
    crypto/rand is an oracle: each draw is the six indices rand.Int returns. */
module Referral {
  import opened Common
  import opened Text
  import opened Models
  import opened Store

  const Charset: string := "ABCDEFGHIJKLMNOPQRSTUVWXYZ0123456789"
  const CodeLength: nat := 6

  /** The alphabet, symbol by symbol: the 26 capitals, then the 10 digits. */
  function Symbol(i: int): (c: char)
    requires 0 <= i < 36
    ensures IsUpper(c) || IsDigit(c)
  {
    if i < 26 then ('A' as int + i) as char else ('0' as int + i - 26) as char
  }

  lemma CharsetSymbols()
    ensures |Charset| == 36
    ensures forall i :: 0 <= i < 36 ==> Charset[i] == Symbol(i)
  {
  }

  /** Position of a symbol in the alphabet. */
  function SymbolIndex(c: char): (i: int)
    requires IsUpper(c) || IsDigit(c)
    ensures 0 <= i < 36 && Symbol(i) == c
  {
    if IsUpper(c) then c as int - 'A' as int else 26 + c as int - '0' as int
  }

  /** Six indices, each what rand.Int(rand.Reader, 36) may return. */
  predicate IsDraw(draw: seq<int>)
  {
    |draw| == CodeLength && forall k :: 0 <= k < |draw| ==> 0 <= draw[k] < 36
  }

  /** `^[A-Z0-9]{6}$` */
  predicate IsReferralCode(s: string)
  {
    |s| == CodeLength && forall k :: 0 <= k < |s| ==> IsUpper(s[k]) || IsDigit(s[k])
  }

  /** The code a draw spells. */
  function Candidate(draw: seq<int>): (code: string)
    requires IsDraw(draw)
    ensures IsReferralCode(code)
  {
    seq(CodeLength, k requires 0 <= k < CodeLength => Symbol(draw[k]))
  }

  function DrawOf(code: string): (draw: seq<int>)
    requires IsReferralCode(code)
    ensures IsDraw(draw)
  {
    seq(CodeLength, k requires 0 <= k < CodeLength => SymbolIndex(code[k]))
  }

  /** Every code of the pattern is spelled by exactly one draw: the 36^6
      codes are all reachable and distinct draws give distinct codes. */
  lemma CodeDrawRoundTrip(code: string, draw: seq<int>)
    requires IsReferralCode(code) && IsDraw(draw)
    ensures Candidate(DrawOf(code)) == code
    ensures DrawOf(Candidate(draw)) == draw
  {
    var c := Candidate(draw);
    forall k | 0 <= k < CodeLength ensures DrawOf(c)[k] == draw[k] {
      assert c[k] == Symbol(draw[k]);
      if draw[k] < 26 { assert IsUpper(c[k]); } else { assert IsDigit(c[k]); }
    }
  }

  /** The inner loop: fill a six-byte buffer, one drawn symbol per cell
      (controllers/userControllers/user.auth.go returns this directly). */
  method DrawCode(draw: seq<int>) returns (code: string)
    requires IsDraw(draw)
    ensures IsReferralCode(code)
    ensures code == Candidate(draw)
  {
    CharsetSymbols();
    var buffer := new char[CodeLength];
    for i := 0 to CodeLength
      invariant forall k :: 0 <= k < i ==> buffer[k] == Symbol(draw[k])
    {
      buffer[i] := Charset[draw[i]];
    }
    code := buffer[..];
  }

  /** checkReferralCodeExists: some user row, deleted or not, has the code. */
  predicate CodeInUse(users: seq<User>, code: string)
    ensures CodeInUse(users, code) <==> exists j :: 0 <= j < |users| && users[j].referralCode == code
  {
    FindUser(users, ReferralCodeIs(code)).Some?
  }

  /** The retry loop: the first drawn code no user row holds. The source
      loops until one comes; the oracle must therefore hold one. */
  method GenerateUniqueCode(db: Database, draws: seq<seq<int>>) returns (code: string)
    requires forall k :: 0 <= k < |draws| ==> IsDraw(draws[k])
    requires exists k :: 0 <= k < |draws| && !CodeInUse(db.users, Candidate(draws[k]))
    ensures IsReferralCode(code)
    ensures forall j :: 0 <= j < |db.users| ==> db.users[j].referralCode != code
    ensures exists k :: 0 <= k < |draws| && code == Candidate(draws[k])
                        && forall j :: 0 <= j < k ==> CodeInUse(db.users, Candidate(draws[j]))
  {
    var attempt := 0;
    while true
      invariant 0 <= attempt < |draws|
      invariant forall j :: 0 <= j < attempt ==> CodeInUse(db.users, Candidate(draws[j]))
      decreases |draws| - attempt
    {
      code := DrawCode(draws[attempt]);
      if FindUser(db.users, ReferralCodeIs(code)).None? {
        return;
      }
      attempt := attempt + 1;
    }
  }

  /** No two user rows share a referral code. */
  ghost predicate DistinctCodes(users: seq<User>)
  {
    forall i, j :: 0 <= i < j < |users| ==> users[i].referralCode != users[j].referralCode
  }

  /** Adding a row whose code no row holds keeps the codes distinct, so
      signups that take their code from the retry loop keep every referral
      code unique across the table. */
  lemma FreshCodeKeepsDistinct(users: seq<User>, u: User)
    requires DistinctCodes(users)
    requires forall j :: 0 <= j < |users| ==> users[j].referralCode != u.referralCode
    ensures DistinctCodes(users + [u])
  {
  }
}
