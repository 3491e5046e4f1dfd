/** GenerateOTP (utils/utils.go): six decimal digits, each the text of one
    draw `rng.Intn(10)`. The time-seeded generator is an oracle: `draws`
    holds the six values it returns. */
module Utils {
  import opened Text

  const OtpLength: nat := 6

  /** Six values, each what Intn(10) may return. */
  predicate IsOtpDraw(draws: seq<int>)
  {
    |draws| == OtpLength && forall k :: 0 <= k < |draws| ==> 0 <= draws[k] < 10
  }

  /** fmt.Sprintf("%d", d) for a single digit d. */
  function DigitChar(d: int): (c: char)
    requires 0 <= d < 10
    ensures IsDigit(c)
  {
    ('0' as int + d) as char
  }

  function DigitValue(c: char): (d: int)
    requires IsDigit(c)
    ensures 0 <= d < 10 && DigitChar(d) == c
  {
    c as int - '0' as int
  }

  /** The code a sequence of draws spells. */
  function OtpCode(draws: seq<int>): (code: string)
    requires IsOtpDraw(draws)
    ensures |code| == OtpLength && AllDigits(code)
  {
    seq(OtpLength, k requires 0 <= k < OtpLength => DigitChar(draws[k]))
  }

  /** The draws that spell a six-digit code. */
  function DrawsOf(code: string): (draws: seq<int>)
    requires |code| == OtpLength && AllDigits(code)
    ensures IsOtpDraw(draws)
  {
    seq(OtpLength, k requires 0 <= k < OtpLength => DigitValue(code[k]))
  }

  /** Different draws give different codes. */
  lemma DrawsRoundTrip(draws: seq<int>)
    requires IsOtpDraw(draws)
    ensures DrawsOf(OtpCode(draws)) == draws
  {
    var code := OtpCode(draws);
    forall k | 0 <= k < OtpLength ensures DrawsOf(code)[k] == draws[k] {
      assert code[k] == DigitChar(draws[k]);
    }
  }

  /** Every six-digit string, leading zeros included, is some draw's code:
      nothing constrains the first digit. */
  lemma EveryCodeReachable(code: string)
    requires |code| == OtpLength && AllDigits(code)
    ensures OtpCode(DrawsOf(code)) == code
  {
  }

  /** The loop of GenerateOTP: append one digit per draw. */
  method GenerateOtp(draws: seq<int>) returns (otp: string)
    requires IsOtpDraw(draws)
    ensures |otp| == OtpLength && AllDigits(otp)
    ensures otp == OtpCode(draws)
  {
    otp := "";
    for i := 0 to OtpLength
      invariant |otp| == i
      invariant forall k :: 0 <= k < i ==> otp[k] == DigitChar(draws[k])
    {
      otp := otp + [DigitChar(draws[i])];
    }
  }
}
