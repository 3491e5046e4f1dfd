/** Go's string primitives as the validators use them: ASCII character
    classes (the `\d` and `[A-Za-z]` of Go's regexp are ASCII-only),
    unicode.IsSpace, strings.TrimSpace, strings.ToLower and `len`, which
    counts the bytes of the UTF-8 encoding, not the characters. */
module Text {

  predicate IsDigit(c: char) { '0' <= c <= '9' }
  predicate IsUpper(c: char) { 'A' <= c <= 'Z' }
  predicate IsLower(c: char) { 'a' <= c <= 'z' }
  predicate IsLetter(c: char) { IsUpper(c) || IsLower(c) }
  predicate IsAlnum(c: char) { IsLetter(c) || IsDigit(c) }

  predicate AllDigits(s: string) { forall k :: 0 <= k < |s| ==> IsDigit(s[k]) }
  predicate AllLetters(s: string) { forall k :: 0 <= k < |s| ==> IsLetter(s[k]) }
  predicate IsAscii(s: string) { forall k :: 0 <= k < |s| ==> s[k] as int < 0x80 }

  /** unicode.IsSpace: the six ASCII blanks, NEL and NBSP, and the
      White_Space code points above Latin-1. */
  predicate IsSpace(c: char)
  {
    c == ' ' || c == '\t' || c == '\n' || c == '\r' || c == '\U{000B}' || c == '\U{000C}'
    || c == '\U{0085}' || c == '\U{00A0}' || c == '\U{1680}'
    || ('\U{2000}' <= c <= '\U{200A}')
    || c == '\U{2028}' || c == '\U{2029}' || c == '\U{202F}' || c == '\U{205F}' || c == '\U{3000}'
  }

  predicate AllSpace(s: string) { forall k :: 0 <= k < |s| ==> IsSpace(s[k]) }

  /** True when strings.TrimSpace has nothing to remove. */
  predicate Trimmed(s: string)
  {
    s == [] || (!IsSpace(s[0]) && !IsSpace(s[|s| - 1]))
  }

  /** Number of bytes of the UTF-8 encoding of one character. */
  function Utf8Width(c: char): (w: nat)
    ensures 1 <= w <= 4
    ensures w == 1 <==> c as int < 0x80
  {
    var v := c as int;
    if v < 0x80 then 1 else if v < 0x800 then 2 else if v < 0x10000 then 3 else 4
  }

  /** Go's `len` of a string: its length in UTF-8 bytes. */
  function ByteLen(s: string): (n: nat)
    ensures |s| <= n <= 4 * |s|
    ensures IsAscii(s) ==> n == |s|
  {
    if s == [] then 0 else Utf8Width(s[0]) + ByteLen(s[1..])
  }

  /** How many space characters open `s`. */
  function LeadingSpaces(s: string): (n: nat)
    ensures n <= |s|
    ensures AllSpace(s[..n])
    ensures n < |s| ==> !IsSpace(s[n])
  {
    if s == [] || !IsSpace(s[0]) then 0 else 1 + LeadingSpaces(s[1..])
  }

  /** How many space characters close `s`. */
  function TrailingSpaces(s: string): (n: nat)
    ensures n <= |s|
    ensures AllSpace(s[|s| - n..])
    ensures n < |s| ==> !IsSpace(s[|s| - 1 - n])
  {
    if s == [] || !IsSpace(s[|s| - 1]) then 0 else 1 + TrailingSpaces(s[..|s| - 1])
  }

  /** strings.TrimSpace: `s` without its leading and trailing spaces. */
  function TrimSpace(s: string): (t: string)
    ensures Trimmed(t)
    ensures exists i :: 0 <= i <= |s| - |t| && t == s[i..i + |t|] && AllSpace(s[..i]) && AllSpace(s[i + |t|..])
    ensures Trimmed(s) ==> t == s
  {
    var i := LeadingSpaces(s);
    var rest := s[i..];
    var t := rest[..|rest| - TrailingSpaces(rest)];
    assert t == s[i..i + |t|];
    assert s[i + |t|..] == rest[|rest| - TrailingSpaces(rest)..];
    t
  }

  /** A string made of ASCII letters and digits only has nothing to trim. */
  lemma AlnumIsTrimmed(s: string)
    requires forall k :: 0 <= k < |s| ==> IsAlnum(s[k])
    ensures TrimSpace(s) == s
    ensures ByteLen(s) == |s|
  {
    forall k | 0 <= k < |s| ensures s[k] as int < 0x80 && !IsSpace(s[k]) {
      assert IsAlnum(s[k]);
    }
    assert IsAscii(s);
    assert Trimmed(s);
  }

  /** unicode.ToLower on one character, for every character whose lower
      case is ASCII: A-Z, U+0130 (capital I with dot above, lowered to 'i')
      and U+212A (Kelvin sign, lowered to 'k'). Any other character is
      returned as it is: its lower case is not ASCII, so comparisons with
      ASCII words come out the same. */
  function LowerChar(c: char): (l: char)
    ensures IsLower(l) ==> IsLower(c) || IsUpper(c) || c == '\U{0130}' || c == '\U{212A}'
  {
    if IsUpper(c) then (c as int + 32) as char
    else if c == '\U{0130}' then 'i'
    else if c == '\U{212A}' then 'k'
    else c
  }

  /** strings.ToLower, one character at a time. */
  function ToLower(s: string): (t: string)
    ensures |t| == |s|
    ensures forall k :: 0 <= k < |s| ==> t[k] == LowerChar(s[k])
  {
    if s == [] then [] else [LowerChar(s[0])] + ToLower(s[1..])
  }
}
