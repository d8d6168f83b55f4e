/**
 * Classification of the backend's OTP error messages by the sign-in page
 * (src/app/auth/page.tsx): the message is lower-cased and searched for
 * key words; the first rule that matches decides.
 */
module OtpErrors {
  import opened Types

  function LowerChar(c: char): char
  {
    if 'A' <= c <= 'Z' then (c as int + 32) as char else c
  }

  /** `toLowerCase`, on the ASCII letters. */
  function Lower(s: string): (r: string)
    ensures |r| == |s|
    ensures forall i :: 0 <= i < |s| ==> r[i] == LowerChar(s[i])
  {
    if s == [] then [] else [LowerChar(s[0])] + Lower(s[1..])
  }

  /** `p` occurs in `s` starting at index `i`. */
  predicate Occurs(s: string, p: string, i: int)
  {
    0 <= i && i + |p| <= |s| && s[i..i + |p|] == p
  }

  /** The reference meaning of `s.includes(p)`: some occurrence exists. */
  ghost predicate Mentions(s: string, p: string)
  {
    exists i :: Occurs(s, p, i)
  }

  /** `s.includes(p)`, computed by trying each start position in turn. */
  function Contains(s: string, p: string): bool
    decreases |s|
  {
    if |p| <= |s| && s[..|p|] == p then true
    else if s == [] then false
    else Contains(s[1..], p)
  }

  /** The search finds `p` exactly when `p` occurs somewhere in `s`. */
  lemma {:induction false} ContainsIffMentions(s: string, p: string)
    ensures Contains(s, p) <==> Mentions(s, p)
    decreases |s|
  {
    if |p| <= |s| && s[..|p|] == p {
      assert Occurs(s, p, 0);
    } else if s == [] {
    } else {
      ContainsIffMentions(s[1..], p);
      if Mentions(s[1..], p) {
        var i :| Occurs(s[1..], p, i);
        assert s[i + 1..i + 1 + |p|] == s[1..][i..i + |p|];
        assert Occurs(s, p, i + 1);
      }
      if Mentions(s, p) {
        var i :| Occurs(s, p, i);
        assert i != 0;
        assert s[1..][i - 1..i - 1 + |p|] == s[i..i + |p|];
        assert Occurs(s[1..], p, i - 1);
      }
    }
  }

  /** Lower-casing a concrete message character by character. */
  lemma LowerSample(s: string, t: string)
    requires |s| == |t| && forall i :: 0 <= i < |s| ==> LowerChar(s[i]) == t[i]
    ensures Lower(s) == t
  {
  }

  /** Lower-casing twice changes nothing more. */
  lemma LowerIdempotent(s: string)
    ensures Lower(Lower(s)) == Lower(s)
  {
  }

  /** Two messages that differ only in letter case lower-case alike. */
  predicate SameUpToCase(a: string, b: string)
  {
    |a| == |b| && forall i :: 0 <= i < |a| ==> LowerChar(a[i]) == LowerChar(b[i])
  }

  /** The text the page searches: the lower-cased message, or "" if none. */
  function MessageText(msg: Option<string>): string
  {
    if msg.Some? then Lower(msg.value) else ""
  }

  /** The categories of a failed OTP verification, in the order they are tried. */
  datatype OtpFailure = Expired | Invalid | TooMany | Unrecognised

  function ClassifyOtpError(msg: Option<string>): OtpFailure
  {
    var m := MessageText(msg);
    if Contains(m, "expired") || Contains(m, "timeout") then Expired
    else if Contains(m, "invalid") || Contains(m, "incorrect") then Invalid
    else if Contains(m, "too many") || Contains(m, "limit") then TooMany
    else Unrecognised
  }

  /**
   * The classification as a first-match rule table over occurrences of the
   * key words in the lower-cased message: each category holds exactly when
   * one of its words occurs and no earlier rule's word does.
   */
  lemma ClassifyOtpErrorRules(msg: Option<string>)
    ensures var m := MessageText(msg);
      var expired := Mentions(m, "expired") || Mentions(m, "timeout");
      var invalid := Mentions(m, "invalid") || Mentions(m, "incorrect");
      var tooMany := Mentions(m, "too many") || Mentions(m, "limit");
      && (ClassifyOtpError(msg) == Expired <==> expired)
      && (ClassifyOtpError(msg) == Invalid <==> !expired && invalid)
      && (ClassifyOtpError(msg) == TooMany <==> !expired && !invalid && tooMany)
      && (ClassifyOtpError(msg) == Unrecognised <==> !expired && !invalid && !tooMany)
  {
    var m := MessageText(msg);
    ContainsIffMentions(m, "expired");
    ContainsIffMentions(m, "timeout");
    ContainsIffMentions(m, "invalid");
    ContainsIffMentions(m, "incorrect");
    ContainsIffMentions(m, "too many");
    ContainsIffMentions(m, "limit");
  }

  /** The classification ignores letter case. */
  lemma {:induction false} ClassifyIgnoresCase(a: string, b: string)
    requires SameUpToCase(a, b)
    ensures ClassifyOtpError(Some(a)) == ClassifyOtpError(Some(b))
    ensures ClassifyOtpError(Some(a)) == ClassifyOtpError(Some(Lower(a)))
  {
    assert Lower(a) == Lower(b);
    LowerIdempotent(a);
  }

  /** A missing or empty message falls through every rule. */
  lemma NoMessageIsUnrecognised()
    ensures ClassifyOtpError(None) == Unrecognised
    ensures ClassifyOtpError(Some("")) == Unrecognised
  {
  }

  /** An upper-case message is recognised as an expiry. */
  lemma ExpiredExample()
    ensures ClassifyOtpError(Some("OTP EXPIRED")) == Expired
  {
    var e := MessageText(Some("OTP EXPIRED"));
    LowerSample("OTP EXPIRED", "otp expired");
    assert Occurs(e, "expired", 4);
    ContainsIffMentions(e, "expired");
  }

  /** A message that mentions both an expiry and a limit is reported as expired. */
  lemma EarlierRuleWins(msg: Option<string>)
    requires Mentions(MessageText(msg), "timeout")
    requires Mentions(MessageText(msg), "invalid") && Mentions(MessageText(msg), "limit")
    ensures ClassifyOtpError(msg) == Expired
  {
    ClassifyOtpErrorRules(msg);
  }

  /** The categories of a failed resend. */
  datatype ResendFailure = RateLimited | OtherFailure

  function ClassifyResendError(msg: Option<string>): ResendFailure
  {
    var m := MessageText(msg);
    if Contains(m, "rate") || Contains(m, "limit") || Contains(m, "too many") then RateLimited
    else OtherFailure
  }

  /** A resend failure counts as rate-limited exactly when one of its words occurs. */
  lemma ClassifyResendErrorRule(msg: Option<string>)
    ensures var m := MessageText(msg);
      (ClassifyResendError(msg) == RateLimited <==>
        Mentions(m, "rate") || Mentions(m, "limit") || Mentions(m, "too many"))
  {
    var m := MessageText(msg);
    ContainsIffMentions(m, "rate");
    ContainsIffMentions(m, "limit");
    ContainsIffMentions(m, "too many");
  }

  /**
   * Substring matching is brittle: a message that merely contains "rate"
   * inside another word is reported as rate limiting.
   */
  lemma GenerateLooksRateLimited()
    ensures ClassifyResendError(Some("Cannot generate")) == RateLimited
  {
    LowerSample("Cannot generate", "cannot generate");
    RateOccursIn("cannot generate");
  }

  lemma RateOccursIn(m: string)
    requires m == "cannot generate"
    ensures Contains(m, "rate")
  {
    assert Occurs(m, "rate", 11);
    ContainsIffMentions(m, "rate");
  }
}
