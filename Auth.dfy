/** The registration modal (src/components/auth/AuthModal.tsx): the input
    sanitisers, the submit validation chain, and the form state with its
    simulated round trip. The Aadhaar check is a format check only; no
    Verhoeff checksum is computed. */
module Auth {
  import opened Common
  import opened LocalStore

  const PhoneLength: nat := 10
  const AadhaarLength: nat := 12

  datatype UserForm = UserForm(name: string, phone: string, aadhaar: string)

  /** The initial `formData`. */
  const EmptyForm: UserForm := UserForm("", "", "")

  datatype UserField = Name | Phone | Aadhaar

  function FieldOf(f: UserForm, field: UserField): string
  {
    match field
    case Name => f.name
    case Phone => f.phone
    case Aadhaar => f.aadhaar
  }

  /** `{ ...prev, [field]: value }`: the named field takes the value, the
      others keep theirs. */
  function WithField(f: UserForm, field: UserField, value: string): (r: UserForm)
    ensures FieldOf(r, field) == value
    ensures forall g: UserField :: g != field ==> FieldOf(r, g) == FieldOf(f, g)
  {
    match field
    case Name => f.(name := value)
    case Phone => f.(phone := value)
    case Aadhaar => f.(aadhaar := value)
  }

  /** `\d` of a regular expression without the `u` flag: the ASCII digits. */
  predicate IsAsciiDigit(c: char)
  {
    '0' <= c <= '9'
  }

  predicate AllDigits(s: string)
  {
    forall i :: 0 <= i < |s| ==> IsAsciiDigit(s[i])
  }

  /** `/^\d{n}$/.test(s)`: exactly n characters, each an ASCII digit; that
      is, n characters of which the digit filter drops none. */
  function MatchesDigits(s: string, n: nat): (b: bool)
    ensures b <==> |s| == n && DigitsOnly(s) == s
  {
    if |s| == n && AllDigits(s) then
      DigitsOnlyKeepsDigits(s);
      true
    else
      false
  }

  /** `s.replace(/\D/g, '')`: the digits of s, in order; every other
      character is dropped. */
  function DigitsOnly(s: string): (r: string)
    ensures AllDigits(r)
    ensures |r| <= |s|
    ensures forall c :: multiset(r)[c] == if IsAsciiDigit(c) then multiset(s)[c] else 0
  {
    if s == [] then []
    else
      var rest := DigitsOnly(s[..|s| - 1]);
      assert s == s[..|s| - 1] + [s[|s| - 1]];
      if IsAsciiDigit(s[|s| - 1]) then rest + [s[|s| - 1]] else rest
  }

  /** `s.slice(0, n)`. */
  function Truncate(s: string, n: nat): (r: string)
    ensures |r| == if |s| <= n then |s| else n
    ensures r == s[..|r|]
  {
    if |s| <= n then s else s[..n]
  }

  /** The `onChange` sanitiser of a digits-only input of at most `max`
      characters: the first `max` digits of what was typed. */
  function Sanitize(raw: string, max: nat): (r: string)
    ensures AllDigits(r)
    ensures |r| <= max && |r| <= |DigitsOnly(raw)|
    ensures r == DigitsOnly(raw)[..|r|]
    ensures |r| == max || r == DigitsOnly(raw)
  {
    Truncate(DigitsOnly(raw), max)
  }

  function SanitizePhone(raw: string): string
  {
    Sanitize(raw, PhoneLength)
  }

  function SanitizeAadhaar(raw: string): string
  {
    Sanitize(raw, AadhaarLength)
  }

  /** One step of the digit filter: the last character is kept exactly
      when it is a digit. */
  lemma DigitsOnlyStep(s: string)
    requires s != []
    ensures DigitsOnly(s) ==
      if IsAsciiDigit(s[|s| - 1]) then DigitsOnly(s[..|s| - 1]) + [s[|s| - 1]] else DigitsOnly(s[..|s| - 1])
  {
  }

  /** A string of digits passes the digit filter unchanged. */
  lemma {:induction false} DigitsOnlyKeepsDigits(s: string)
    requires AllDigits(s)
    ensures DigitsOnly(s) == s
  {
    if s != [] {
      var init := s[..|s| - 1];
      assert AllDigits(init) by {
        forall i | 0 <= i < |init|
          ensures IsAsciiDigit(init[i])
        {
          assert init[i] == s[i];
        }
      }
      DigitsOnlyKeepsDigits(init);
      DigitsOnlyStep(s);
      assert s == init + [s[|s| - 1]];
    }
  }

  /** The digit filter keeps the order of the digits: filtering a
      concatenation is concatenating the filtered parts. */
  lemma {:induction false} DigitsOnlyDistributes(a: string, b: string)
    ensures DigitsOnly(a + b) == DigitsOnly(a) + DigitsOnly(b)
  {
    if b == [] {
      assert a + b == a;
    } else {
      var ab := a + b;
      var init := b[..|b| - 1];
      assert ab[..|ab| - 1] == a + init;
      assert ab[|ab| - 1] == b[|b| - 1];
      DigitsOnlyDistributes(a, init);
      DigitsOnlyStep(ab);
      DigitsOnlyStep(b);
    }
  }

  /** Sanitising a sanitised value changes nothing. */
  lemma SanitizeIdempotent(raw: string, max: nat)
    ensures Sanitize(Sanitize(raw, max), max) == Sanitize(raw, max)
  {
    DigitsOnlyKeepsDigits(Sanitize(raw, max));
  }

  /** A sanitised phone number passes the phone format check exactly when at
      least ten digits were typed. */
  lemma SanitizedPhoneMatches(raw: string)
    ensures MatchesDigits(SanitizePhone(raw), PhoneLength) <==> |DigitsOnly(raw)| >= PhoneLength
  {
  }

  /** A sanitised Aadhaar number passes its format check exactly when at
      least twelve digits were typed. */
  lemma SanitizedAadhaarMatches(raw: string)
    ensures MatchesDigits(SanitizeAadhaar(raw), AadhaarLength) <==> |DigitsOnly(raw)| >= AadhaarLength
  {
  }

  /** The toast a rejected submit shows. */
  datatype SubmitError = MissingFields | InvalidAadhaar | InvalidPhone

  /** The validation chain of `handleSubmit`: required fields, then the
      Aadhaar format, then the phone format; the first failure is reported.
      `None` means the submit goes ahead. */
  function CheckSubmission(f: UserForm): (r: Option<SubmitError>)
    ensures r.None? <==>
              f.name != "" && MatchesDigits(f.aadhaar, AadhaarLength) && MatchesDigits(f.phone, PhoneLength)
    ensures r == Some(MissingFields) <==> f.name == "" || f.phone == "" || f.aadhaar == ""
    ensures r == Some(InvalidAadhaar) <==>
              f.name != "" && f.phone != "" && f.aadhaar != "" && !MatchesDigits(f.aadhaar, AadhaarLength)
    ensures r == Some(InvalidPhone) <==>
              f.name != "" && MatchesDigits(f.aadhaar, AadhaarLength) && f.phone != "" &&
              !MatchesDigits(f.phone, PhoneLength)
  {
    if f.name == "" || f.phone == "" || f.aadhaar == "" then Some(MissingFields)
    else if !MatchesDigits(f.aadhaar, AadhaarLength) then Some(InvalidAadhaar)
    else if !MatchesDigits(f.phone, PhoneLength) then Some(InvalidPhone)
    else None
  }

  /** The name is not trimmed: a name of one space passes the required check. */
  lemma BlankNameAccepted()
    ensures CheckSubmission(UserForm(" ", "9876543210", "123456789012")).None?
  {
    assert AllDigits("9876543210");
    assert AllDigits("123456789012");
  }

  /** Twelve digits with a leading `+` or with spaces fail, and so does a
      twelve-character value with a `+` in it; each is reported as an Aadhaar
      error, not a missing field. */
  lemma DecoratedAadhaarRejected()
    ensures CheckSubmission(UserForm("A", "9876543210", "+123456789012")) == Some(InvalidAadhaar)
    ensures CheckSubmission(UserForm("A", "9876543210", "+12345678901")) == Some(InvalidAadhaar)
    ensures CheckSubmission(UserForm("A", "9876543210", "1234 5678 9012")) == Some(InvalidAadhaar)
  {
    assert !IsAsciiDigit("+12345678901"[0]);
  }

  /** The record stored under `legalai_user`. */
  function Serialized(f: UserForm): (v: Stored)
    ensures v.UserJson? && v.name == f.name && v.phone == f.phone && v.aadhaar == f.aadhaar
  {
    UserJson(f.name, f.phone, f.aadhaar)
  }

  class AuthModal {
    var formData: UserForm
    var isLoading: bool
    /** The form snapshots of the submits whose simulated round trip has not
        yet finished, oldest first (every round trip takes the same delay). */
    var pending: seq<UserForm>
    const store: LocalStorage

    /** Only validated records are ever on their way to storage. */
    ghost predicate Valid()
      reads this
    {
      forall i :: 0 <= i < |pending| ==> CheckSubmission(pending[i]).None?
    }

    constructor (store: LocalStorage)
      ensures Valid()
      ensures formData == EmptyForm && !isLoading && pending == []
      ensures this.store == store
    {
      formData := EmptyForm;
      isLoading := false;
      pending := [];
      this.store := store;
    }

    /** `handleInputChange`: only the named field changes. */
    method HandleInputChange(field: UserField, value: string)
      modifies this`formData
      ensures formData == WithField(old(formData), field, value)
    {
      formData := WithField(formData, field, value);
    }

    /** The phone input's `onChange`: the sanitised text goes into `phone`. */
    method OnPhoneInput(raw: string)
      modifies this`formData
      ensures formData == old(formData).(phone := SanitizePhone(raw))
      ensures AllDigits(formData.phone) && |formData.phone| <= PhoneLength
    {
      HandleInputChange(Phone, SanitizePhone(raw));
    }

    /** The Aadhaar input's `onChange`. */
    method OnAadhaarInput(raw: string)
      modifies this`formData
      ensures formData == old(formData).(aadhaar := SanitizeAadhaar(raw))
      ensures AllDigits(formData.aadhaar) && |formData.aadhaar| <= AadhaarLength
    {
      HandleInputChange(Aadhaar, SanitizeAadhaar(raw));
    }

    /** `handleSubmit`: a rejected submit reports the first failed check and
        changes nothing; an accepted one sets `isLoading` and schedules the
        round trip with the form as it is now. */
    method HandleSubmit() returns (error: Option<SubmitError>)
      requires Valid()
      modifies this`isLoading, this`pending
      ensures Valid()
      ensures error == CheckSubmission(formData)
      ensures error.Some? ==> isLoading == old(isLoading) && pending == old(pending)
      ensures error.None? ==> isLoading && pending == old(pending) + [formData]
    {
      error := CheckSubmission(formData);
      if error.None? {
        isLoading := true;
        pending := pending + [formData];
      }
    }

    /** The end of the oldest round trip: the submitted record is stored
        under `legalai_user` and `isLoading` is cleared. The caller then runs
        `onSuccess`. */
    method CompleteSubmit() returns (user: UserForm)
      requires Valid() && pending != []
      modifies this`isLoading, this`pending, store
      ensures Valid()
      ensures user == old(pending[0]) && pending == old(pending[1..])
      ensures CheckSubmission(user).None?
      ensures store.items == old(store.items)[UserKey := Serialized(user)]
      ensures !isLoading && formData == old(formData)
    {
      user := pending[0];
      pending := pending[1..];
      store.SetItem(UserKey, Serialized(user));
      isLoading := false;
    }
  }
}
