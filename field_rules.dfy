/** The per-field rules of a contact, shared by the constructor and the
    setters (Contact.java:24-46 and :78-102). A value is rejected only
    when it is null or too long; the empty string passes every rule
    except the phone's. */
module FieldRules {
  import opened Common

  const MaxIdLength: nat := 10
  const MaxNameLength: nat := 10
  const PhoneLength: nat := 10
  const MaxAddressLength: nat := 30

  /** Java's `\d` without UNICODE_CHARACTER_CLASS: an ASCII decimal digit. */
  predicate IsDigit(c: char) {
    '0' <= c <= '9'
  }

  /** `s.matches("\\d{n}")`: the whole of `s` is exactly n digits.
      Written the way the pattern consumes its input, one digit at a time. */
  predicate MatchesDigits(s: string, n: nat)
    decreases n
  {
    if n == 0 then s == []
    else |s| > 0 && IsDigit(s[0]) && MatchesDigits(s[1..], n - 1)
  }

  predicate AllDigits(s: string) {
    forall i :: 0 <= i < |s| ==> IsDigit(s[i])
  }

  /** The pattern `\d{n}` matches exactly the strings of n digits. */
  lemma {:induction false} MatchesDigitsIff(s: string, n: nat)
    ensures MatchesDigits(s, n) <==> |s| == n && AllDigits(s)
    decreases n
  {
    if n > 0 && |s| > 0 {
      MatchesDigitsIff(s[1..], n - 1);
      if AllDigits(s) {
        assert AllDigits(s[1..]) by {
          forall i | 0 <= i < |s[1..]| ensures IsDigit(s[1..][i]) {
            assert s[1..][i] == s[i + 1];
          }
        }
      }
      if IsDigit(s[0]) && AllDigits(s[1..]) {
        forall i | 0 <= i < |s| ensures IsDigit(s[i]) {
          if i > 0 { assert s[i] == s[1..][i - 1]; }
        }
      }
    }
  }

  /** The rule the source applies to a value of field f, before it is
      stored: the negation of the `throw` guard for that field. For the
      phone, the pattern match is stated as "all digits"; PhoneRule proves
      this equal to the guard as written. */
  predicate FieldOk(f: Field, v: Option<string>) {
    match f
    case Id => v.Some? && |v.value| <= MaxIdLength
    case FirstName => v.Some? && |v.value| <= MaxNameLength
    case LastName => v.Some? && |v.value| <= MaxNameLength
    case Phone => v.Some? && |v.value| == PhoneLength && AllDigits(v.value)
    case Address => v.Some? && |v.value| <= MaxAddressLength
  }

  /** The length limit of a length-limited field. */
  function MaxLength(f: Field): nat
    requires f != Phone
  {
    match f
    case Id => MaxIdLength
    case FirstName => MaxNameLength
    case LastName => MaxNameLength
    case Address => MaxAddressLength
  }

  /** Id, names and address: a value passes iff it is non-null and not
      longer than the field's limit. In particular the empty string passes. */
  lemma LengthRule(f: Field, v: Option<string>)
    requires f != Phone
    ensures FieldOk(f, v) <==> v.Some? && |v.value| <= MaxLength(f)
    ensures FieldOk(f, Some(""))
  {
  }

  /** The phone guard as written,
      `phone == null || phone.length() != 10 || !phone.matches("\\d{10}")`,
      throws exactly when FieldOk rejects the value. */
  lemma PhoneRule(v: Option<string>)
    ensures FieldOk(Phone, v) <==> !(v.None? || |v.value| != PhoneLength || !MatchesDigits(v.value, PhoneLength))
  {
    if v.Some? {
      MatchesDigitsIff(v.value, PhoneLength);
    }
  }

  /** A phone number is rejected when it is shorter or longer than ten
      characters, or when any character is not a digit. */
  lemma PhoneRejections(s: string, i: nat)
    ensures |s| != PhoneLength ==> !FieldOk(Phone, Some(s))
    ensures i < |s| && !IsDigit(s[i]) ==> !FieldOk(Phone, Some(s))
    ensures !FieldOk(Phone, None)
  {
    PhoneRule(Some(s));
  }

  /** The boundary values of the unit tests: ten characters pass for id,
      first and last name and eleven fail; thirty pass for the address and
      a longer text fails; "1234567890" is a phone and "123456789",
      "12345678901" and "123456789a" are not; null fails everywhere. */
  lemma BoundaryExamples(f: Field)
    ensures f != Address ==> FieldOk(f, Some("1234567890"))
    ensures f == Id || f == FirstName || f == LastName ==> !FieldOk(f, Some("12345678901"))
    ensures FieldOk(Address, Some("123456789012345678901234567890"))
    ensures !FieldOk(Address, Some("1234567890123456789012345678901"))
    ensures !FieldOk(Phone, Some("123456789")) && !FieldOk(Phone, Some("12345678901"))
    ensures !FieldOk(Phone, Some("123456789a"))
    ensures !FieldOk(f, None)
  {
    PhoneRule(Some("1234567890"));
    PhoneRejections("123456789a", 9);
  }
}
