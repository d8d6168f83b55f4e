/**
 * The three form schemas of the sign-in page (src/app/auth/page.tsx): the
 * mobile number, the one-time password and the profile. A form's handler
 * runs only when its schema accepts the input.
 */
module Schemas {

  predicate IsDigit(c: char)
  {
    '0' <= c <= '9'
  }

  /** Matches `\d*` (a JavaScript `\d` without the Unicode flag is 0-9). */
  function AllDigits(s: string): (b: bool)
    ensures b <==> forall i :: 0 <= i < |s| ==> IsDigit(s[i])
  {
    if s == [] then true else IsDigit(s[0]) && AllDigits(s[1..])
  }

  /** The mobile schema `^[6-9]\d{9}$`: ten digits, the first 6 to 9. */
  function ValidMobile(s: string): (b: bool)
    ensures b <==> |s| == 10 && '6' <= s[0] <= '9' && forall i :: 0 <= i < |s| ==> IsDigit(s[i])
  {
    |s| == 10 && '6' <= s[0] <= '9' && AllDigits(s[1..])
  }

  /**
   * The OTP schema: a string of length exactly 4. Only the length is
   * checked; digit-ness is left to the backend.
   */
  predicate ValidOtp(s: string)
  {
    |s| == 4
  }

  /** The name field: at least two characters. */
  predicate ValidName(s: string)
  {
    |s| >= 2
  }

  /** The pincode schema `^[1-9][0-9]{5}$`: six digits, the first not 0. */
  function ValidPincode(s: string): (b: bool)
    ensures b <==> |s| == 6 && '1' <= s[0] <= '9' && forall i :: 0 <= i < |s| ==> IsDigit(s[i])
  {
    |s| == 6 && '1' <= s[0] <= '9' && AllDigits(s[1..])
  }

  /**
   * The optional e-mail field: empty, or accepted by the schema library's
   * e-mail check, which is not modelled and arrives as `wellFormed`.
   */
  predicate ValidEmail(email: string, wellFormed: bool)
  {
    email == "" || wellFormed
  }

  /** The whole profile form. */
  predicate ValidProfile(name: string, pincode: string, email: string, emailWellFormed: bool)
  {
    ValidName(name) && ValidPincode(pincode) && ValidEmail(email, emailWellFormed)
  }

  /** Sample mobile numbers: a valid one, and one starting with 5. */
  lemma MobileExamples()
    ensures ValidMobile("9876543210")
    ensures !ValidMobile("5123456789")
    ensures !ValidMobile("987654321")
    ensures !ValidMobile("98765432a0")
  {
    assert !IsDigit("98765432a0"[8]);
  }

  /** The OTP schema rejects three and five characters, before any call. */
  lemma OtpExamples()
    ensures ValidOtp("1234") && !ValidOtp("123") && !ValidOtp("12345")
    ensures ValidOtp("abcd")
  {
  }

  /** Sample profile values. */
  lemma ProfileExamples()
    ensures ValidPincode("203205") && !ValidPincode("023205") && !ValidPincode("20320")
    ensures ValidName("Ravi Kumar") && !ValidName("R")
  {
  }
}
