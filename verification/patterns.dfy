/** The regular expressions and the strconv.Atoi check of the validators,
    as character-class predicates. A Go regexp anchored with `^...$` must
    match the whole string, and `$` without the multi-line flag matches only
    at its very end. */
module Patterns {
  import opened Common
  import opened Text

  // ---------------------------------------------------------------------
  // Email: ^[a-zA-Z0-9._%+-]+@[a-zA-Z0-9.-]+\.[a-zA-Z]{2,}$

  predicate IsLocalChar(c: char)
  {
    IsAlnum(c) || c == '.' || c == '_' || c == '%' || c == '+' || c == '-'
  }

  predicate IsDomainChar(c: char)
  {
    IsAlnum(c) || c == '.' || c == '-'
  }

  predicate AllLocal(s: string) { forall k :: 0 <= k < |s| ==> IsLocalChar(s[k]) }
  predicate AllDomain(s: string) { forall k :: 0 <= k < |s| ==> IsDomainChar(s[k]) }

  /** The language of the email pattern: a non-empty local part, '@', a
      non-empty domain, '.', and a top-level label of at least two letters. */
  ghost predicate EmailShape(s: string)
  {
    exists at, dot :: EmailSplit(s, at, dot)
  }

  /** `s` is local part `s[..at]`, '@', domain `s[at+1..dot]`, '.' and
      top-level label `s[dot+1..]`. */
  predicate EmailSplit(s: string, at: int, dot: int)
  {
    0 < at && at + 1 < dot && dot + 2 < |s|
    && s[at] == '@' && s[dot] == '.'
    && AllLocal(s[..at]) && AllDomain(s[at + 1..dot]) && AllLetters(s[dot + 1..])
  }

  /** Position of the first `c` in `s`. */
  function IndexOf(s: string, c: char): (r: Option<nat>)
    ensures r.Some? ==> r.value < |s| && s[r.value] == c && forall k :: 0 <= k < r.value ==> s[k] != c
    ensures r.None? ==> forall k :: 0 <= k < |s| ==> s[k] != c
  {
    if s == [] then None
    else if s[0] == c then Some(0)
    else match IndexOf(s[1..], c)
      case None => None
      case Some(k) => Some(k + 1)
  }

  /** Position of the last `c` in `s`. */
  function LastIndexOf(s: string, c: char): (r: Option<nat>)
    ensures r.Some? ==> r.value < |s| && s[r.value] == c && forall k :: r.value < k < |s| ==> s[k] != c
    ensures r.None? ==> forall k :: 0 <= k < |s| ==> s[k] != c
  {
    if s == [] then None
    else if s[|s| - 1] == c then Some(|s| - 1)
    else LastIndexOf(s[..|s| - 1], c)
  }

  /** What follows the '@': a domain, then a '.' and at least two letters. */
  predicate IsDomainTail(r: string)
  {
    match LastIndexOf(r, '.')
    case None => false
    case Some(dot) => 0 < dot && dot + 2 < |r| && AllDomain(r[..dot]) && AllLetters(r[dot + 1..])
  }

  /** isValidEmail, decided by splitting at the first '@' and the last '.'. */
  predicate IsValidEmail(s: string)
  {
    match IndexOf(s, '@')
    case None => false
    case Some(at) => 0 < at && AllLocal(s[..at]) && IsDomainTail(s[at + 1..])
  }

  /** What the scanner accepts has the shape of the pattern. */
  lemma EmailScannerSound(s: string)
    requires IsValidEmail(s)
    ensures EmailShape(s)
  {
    var at := IndexOf(s, '@').value;
    var r := s[at + 1..];
    var d := LastIndexOf(r, '.').value;
    var dot := at + 1 + d;
    assert s[dot] == r[d];
    assert s[at + 1..dot] == r[..d];
    assert s[dot + 1..] == r[d + 1..];
    assert EmailSplit(s, at, dot);
  }

  /** Every string of the pattern's shape is accepted by the scanner. */
  lemma EmailScannerComplete(s: string)
    requires EmailShape(s)
    ensures IsValidEmail(s)
  {
    var at, dot :| EmailSplit(s, at, dot);
    SplitIsFound(s, at, dot);
  }

  /** The local part holds no '@' and the top-level label holds no '.', so
      the first '@' and the last '.' are the ones the split names. */
  lemma SplitIsFound(s: string, at: int, dot: int)
    requires EmailSplit(s, at, dot)
    ensures IsValidEmail(s)
  {
    forall k | 0 <= k < at ensures s[k] != '@' {
      assert IsLocalChar(s[..at][k]);
    }
    FirstOccurrence(s, '@', at);
    var r := s[at + 1..];
    var d := dot - at - 1;
    forall k | d < k < |r| ensures r[k] != '.' {
      assert IsLetter(s[dot + 1..][k - d - 1]);
    }
    LastOccurrence(r, '.', d);
    assert r[..d] == s[at + 1..dot];
    assert r[d + 1..] == s[dot + 1..];
    assert IsDomainTail(r);
  }

  lemma FirstOccurrence(s: string, c: char, i: nat)
    requires i < |s| && s[i] == c
    requires forall k :: 0 <= k < i ==> s[k] != c
    ensures IndexOf(s, c) == Some(i)
  {
  }

  lemma LastOccurrence(s: string, c: char, i: nat)
    requires i < |s| && s[i] == c
    requires forall k :: i < k < |s| ==> s[k] != c
    ensures LastIndexOf(s, c) == Some(i)
  {
  }

  /** The scanner decides exactly the language of the pattern. */
  lemma EmailIff(s: string)
    ensures IsValidEmail(s) <==> EmailShape(s)
  {
    if IsValidEmail(s) { EmailScannerSound(s); }
    if EmailShape(s) { EmailScannerComplete(s); }
  }

  /** Nothing without an '@' or shorter than "a@b.cd" is an email. */
  lemma EmailNeedsSixCharacters(s: string)
    requires IsValidEmail(s)
    ensures |s| >= 6 && '@' in s
  {
    EmailIff(s);
  }

  // ---------------------------------------------------------------------
  // Mobile: ^\d{10}$

  predicate IsValidMobile(s: string)
  {
    |s| == 10 && AllDigits(s)
  }

  /** Every number below 10^10, written with ten digits and its leading
      zeros, is a valid mobile number that reads back as that number. */
  lemma {:induction false} MobileOfNumber(n: nat)
    requires n < Pow10(10)
    ensures IsValidMobile(Decimal(n, 10))
    ensures DigitsValue(Decimal(n, 10)) == n
  {
    DecimalValue(n, 10);
  }

  /** Every valid mobile number is such a rendering, of a number below
      10^10; it has nothing to trim and is ten bytes long. */
  lemma {:induction false} NumberOfMobile(s: string)
    requires IsValidMobile(s)
    ensures DigitsValue(s) < Pow10(10)
    ensures s == Decimal(DigitsValue(s), 10)
    ensures TrimSpace(s) == s && ByteLen(s) == 10
  {
    DigitsDecimal(s);
    forall k | 0 <= k < |s| ensures IsAlnum(s[k]) {
      assert IsDigit(s[k]);
    }
    AlnumIsTrimmed(s);
  }

  // ---------------------------------------------------------------------
  // IFSC: ^[A-Za-z]{4}0[A-Za-z0-9]{6}$

  predicate IsValidIFSC(s: string)
  {
    |s| == 11
    && (forall k :: 0 <= k < 4 ==> IsLetter(s[k]))
    && s[4] == '0'
    && (forall k :: 5 <= k < 11 ==> IsAlnum(s[k]))
  }

  /** The pattern read as a concatenation: four letters, the digit '0', and
      six letters or digits always match. */
  lemma {:induction false} IfscFromParts(bank: string, branch: string)
    requires |bank| == 4 && AllLetters(bank)
    requires |branch| == 6 && forall k :: 0 <= k < 6 ==> IsAlnum(branch[k])
    ensures IsValidIFSC(bank + "0" + branch)
  {
    var s := bank + "0" + branch;
    forall k | 0 <= k < 4 ensures IsLetter(s[k]) {
      assert s[k] == bank[k];
    }
    forall k | 5 <= k < 11 ensures IsAlnum(s[k]) {
      assert s[k] == branch[k - 5];
    }
  }

  /** And every match splits that way. */
  lemma {:induction false} IfscToParts(s: string)
    requires IsValidIFSC(s)
    ensures s == s[..4] + "0" + s[5..]
    ensures AllLetters(s[..4])
    ensures |s[5..]| == 6 && forall k :: 0 <= k < 6 ==> IsAlnum(s[5..][k])
  {
    assert s == s[..4] + [s[4]] + s[5..];
    forall k | 0 <= k < 4 ensures IsLetter(s[..4][k]) {
      assert s[..4][k] == s[k];
    }
    forall k | 0 <= k < 6 ensures IsAlnum(s[5..][k]) {
      assert s[5..][k] == s[5 + k];
    }
  }

  /** An IFSC matching the pattern has nothing to trim and takes eleven
      bytes, so the validator's separate length check never adds anything. */
  lemma IfscLengthImplied(s: string)
    requires IsValidIFSC(s)
    ensures ByteLen(TrimSpace(s)) == 11
  {
    forall k | 0 <= k < |s| ensures IsAlnum(s[k]) {
      if k < 4 { assert IsLetter(s[k]); } else if k == 4 { assert IsDigit(s[k]); }
    }
    AlnumIsTrimmed(s);
  }

  // ---------------------------------------------------------------------
  // strconv.Atoi

  const MaxInt64: int := 0x7FFF_FFFF_FFFF_FFFF

  /** Value of a string of decimal digits. */
  function DigitsValue(s: string): (v: nat)
    requires AllDigits(s)
    ensures v < Pow10(|s|)
  {
    if s == [] then 0
    else DigitsValue(s[..|s| - 1]) * 10 + (s[|s| - 1] as int - '0' as int)
  }

  function Pow10(n: nat): (p: nat)
    ensures p >= 1
  {
    if n == 0 then 1 else 10 * Pow10(n - 1)
  }

  predicate IsSign(c: char) { c == '+' || c == '-' }

  /** The digits after an optional sign. */
  function Unsigned(s: string): string
  {
    if |s| > 0 && IsSign(s[0]) then s[1..] else s
  }

  /** strconv.Atoi succeeds: an optional sign, at least one decimal digit,
      and a value that fits the 64-bit int (down to -2^63 with a '-'). */
  predicate IsValidNumeric(s: string)
  {
    var digits := Unsigned(s);
    |digits| > 0 && AllDigits(digits)
    && DigitsValue(digits) <= (if |s| > 0 && s[0] == '-' then MaxInt64 + 1 else MaxInt64)
  }

  /** A leading '+' changes nothing, and a number Atoi accepts is also
      accepted with a leading '-' (the negative range is one larger). */
  lemma {:induction false} SignedNumeric(d: string)
    requires |d| > 0 && !IsSign(d[0])
    ensures IsValidNumeric("+" + d) <==> IsValidNumeric(d)
    ensures IsValidNumeric(d) ==> IsValidNumeric("-" + d)
  {
    assert Unsigned(d) == d;
    assert Unsigned("+" + d) == d;
    assert Unsigned("-" + d) == d;
  }

  /** `n` written with `width` decimal digits, leading zeros included (the
      low `width` digits when `n` is larger). */
  function Decimal(n: nat, width: nat): (s: string)
    ensures |s| == width && AllDigits(s)
  {
    if width == 0 then "" else Decimal(n / 10, width - 1) + [('0' as int + n % 10) as char]
  }

  lemma {:induction false} DecimalValue(n: nat, width: nat)
    requires n < Pow10(width)
    ensures DigitsValue(Decimal(n, width)) == n
  {
    if width > 0 {
      DecimalValue(n / 10, width - 1);
      var s := Decimal(n, width);
      assert s[..|s| - 1] == Decimal(n / 10, width - 1);
    }
  }

  lemma {:induction false} DigitsDecimal(s: string)
    requires AllDigits(s)
    ensures Decimal(DigitsValue(s), |s|) == s
  {
    if s != [] {
      var p := s[..|s| - 1];
      DigitsDecimal(p);
      var v := DigitsValue(s);
      assert v / 10 == DigitsValue(p);
      assert v % 10 == s[|s| - 1] as int - '0' as int;
      assert s == p + [s[|s| - 1]];
    }
  }

  lemma Pow10Grows(m: nat, n: nat)
    requires m <= n
    ensures Pow10(m) <= Pow10(n)
  {
  }

  lemma Pow10Eighteen()
    ensures Pow10(18) == 1_000_000_000_000_000_000
  {
    assert Pow10(2) == 100;
    assert Pow10(4) == 10_000;
    assert Pow10(6) == 1_000_000;
    assert Pow10(8) == 100_000_000;
    assert Pow10(10) == 10_000_000_000;
    assert Pow10(12) == 1_000_000_000_000;
    assert Pow10(14) == 100_000_000_000_000;
    assert Pow10(16) == 10_000_000_000_000_000;
  }

  /** For strings of at most eighteen characters the range check of Atoi
      never fails: success is exactly "optional sign, then digits". */
  lemma ShortNumericNeverOverflows(s: string)
    requires |s| <= 18
    ensures IsValidNumeric(s) <==> |Unsigned(s)| > 0 && AllDigits(Unsigned(s))
  {
    var digits := Unsigned(s);
    if |digits| > 0 && AllDigits(digits) {
      Pow10Grows(|digits|, 18);
      Pow10Eighteen();
    }
  }
}
