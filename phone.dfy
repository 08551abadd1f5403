/** PhoneNormalizer: the canonical dialable form of a phone number and the participant
    identity derived from it (agent.py `_normalize_phone_number`,
    `_participant_identity_for_phone`). */
module Phone {
  import opened Text

  /** The identity used when the number holds no digit. */
  const UnknownIdentity: string := "sip_unknown"

  /** A canonical number: `+` followed by at least one digit (the pattern `^\+[0-9]+$`). */
  predicate IsCanonical(s: string)
  {
    |s| >= 2 && s[0] == '+' && AllDigits(s[1..])
  }

  /** `_normalize_phone_number`: empty when the input has no digit, otherwise canonical and
      carrying exactly the input's digits, in order. */
  function NormalizePhoneNumber(raw: string): (r: string)
    ensures r == "" <==> Digits(raw) == ""
    ensures r == "" || IsCanonical(r)
    ensures Digits(r) == Digits(raw)
  {
    var digits := Digits(raw);
    if digits == "" then ""
    else
      DigitsAppend("+", digits);
      DigitsOfAllDigits(digits);
      assert ("+" + digits)[1..] == digits;
      "+" + digits
  }

  /** `_participant_identity_for_phone`: `sip_` and the digits, or the unknown sentinel
      exactly when there are no digits. */
  function ParticipantIdentityForPhone(raw: string): (id: string)
    ensures StartsWith(id, "sip_") && |id| > 4
    ensures id == UnknownIdentity <==> Digits(raw) == ""
    ensures id != UnknownIdentity ==> id[4..] == Digits(raw)
  {
    var digits := Digits(raw);
    if digits == "" then UnknownIdentity
    else
      assert ("sip_" + digits)[4] == digits[0];
      assert UnknownIdentity[4] == 'u';
      assert ("sip_" + digits)[4..] == digits;
      "sip_" + digits
  }

  /** Normalising twice is normalising once. */
  lemma NormalizeIdempotent(raw: string)
    ensures NormalizePhoneNumber(NormalizePhoneNumber(raw)) == NormalizePhoneNumber(raw)
  {
    var r := NormalizePhoneNumber(raw);
    if r != "" {
      assert r == "+" + r[1..];
      DigitsOfAllDigits(r[1..]);
    }
  }

  /** A canonical number is a fixed point of normalisation. */
  lemma {:induction false} CanonicalIsNormal(s: string)
    requires IsCanonical(s)
    ensures NormalizePhoneNumber(s) == s
  {
    assert s == "+" + s[1..];
    DigitsAppend("+", s[1..]);
    DigitsOfAllDigits(s[1..]);
  }

  /** The identity does not change when the number is normalised first. */
  lemma IdentityOfNormalized(raw: string)
    ensures ParticipantIdentityForPhone(NormalizePhoneNumber(raw)) == ParticipantIdentityForPhone(raw)
  {
  }

  /** A canonical number `+d` is the participant `sip_d`. */
  lemma {:induction false} IdentityOfCanonical(s: string)
    requires IsCanonical(s)
    ensures ParticipantIdentityForPhone(s) == "sip_" + s[1..]
  {
    assert s == "+" + s[1..];
    DigitsAppend("+", s[1..]);
    DigitsOfAllDigits(s[1..]);
    assert Digits(s) == s[1..];
    var id := ParticipantIdentityForPhone(s);
    assert id != UnknownIdentity;
    assert id[4..] == s[1..];
    assert id[..4] == "sip_";
    assert id == id[..4] + id[4..];
  }
}
