/** The contact field of the delivery step
    (src/components/diagnostic/ContactInput.tsx): its email and phone
    checks, the country-code rewrite and the error shown on blur. The
    field's value is owned by the page; the component keeps its error and
    the selected code. */
module ContactInput {

  import opened Text
  import opened Decimal
  import opened Domain
  import opened Validation

  /** `COUNTRY_CODES`, without the display names and flags. */
  const CountryCodes: seq<string> := ["+1", "+44", "+91", "+86", "+81", "+49", "+33", "+61", "+971", "+65"]

  /** A code as listed: `+` then at least one digit. */
  predicate IsCountryCode(code: string) {
    2 <= |code| && code[0] == '+' && AllDigits(code[1..])
  }

  predicate NotWhitespace(c: char) {
    !IsWhitespace(c)
  }

  /** `s.replace(/\s/g, "")` */
  function RemoveWhitespace(s: string): (r: string)
    ensures NoWhitespace(r)
    ensures NoWhitespace(s) ==> r == s
  {
    assert NoWhitespace(s) ==> Filter(NotWhitespace, s) == s by {
      if NoWhitespace(s) {
        FilterAllKept(NotWhitespace, s);
      }
    }
    Filter(NotWhitespace, s)
  }

  /** `/^\+\d{10,}$/` */
  predicate IsPhoneNumber(s: string) {
    11 <= |s| && s[0] == '+' && AllDigits(s[1..])
  }

  predicate ValidatePhone(phone: string) {
    IsPhoneNumber(RemoveWhitespace(phone))
  }

  /** `/^[^\s@]+@[^\s@]+\.[^\s@]+$/`, the route's pattern without its
      length bound. */
  predicate ValidateEmail(email: string) {
    HasEmailShape(email)
  }

  /** `isValid`: the email pattern for email, the phone pattern otherwise. */
  predicate IsValid(via: DeliveryMethod, value: string) {
    if via == ByEmail then ValidateEmail(value) else ValidatePhone(value)
  }

  /** `value.replace(/^\+\d+\s?/, "")`: a leading `+` with all the digits
      after it, and one whitespace character if one follows, is removed. */
  function StripCode(v: string): (r: string)
    ensures |r| <= |v| && r == v[|v| - |r|..]
    ensures !(2 <= |v| && v[0] == '+' && IsDigit(v[1])) ==> r == v
  {
    if 2 <= |v| && v[0] == '+' && IsDigit(v[1]) then
      var n := 1 + |LeadingDigits(v[1..])|;
      var rest := v[n..];
      if rest != [] && IsWhitespace(rest[0]) then rest[1..] else rest
    else v
  }

  /** `handleCountrySelect`: the number typed so far, without any code it
      already carries, behind the chosen code and one space. */
  function HandleCountrySelect(value: string, code: string): (r: string)
    ensures |r| > |code| && r[..|code|] == code && r[|code|] == ' '
  {
    var rest := Trim(StripCode(value));
    if rest != [] then code + " " + rest else code + " "
  }

  const RequiredMessage: string := "This field is required"
  const EmailMessage: string := "Please enter a valid email address"
  const PhoneMessage: string := "Please enter a valid phone number with country code (e.g., +91...)"

  /** The error `handleBlur` leaves: required, then the method's own
      message; a valid value keeps whatever error was shown before. */
  function BlurError(via: DeliveryMethod, value: string, prior: string): (e: string)
    ensures value == [] ==> e == RequiredMessage
    ensures value != [] && IsValid(via, value) ==> e == prior
    ensures value != [] && !IsValid(via, value) ==>
              e == (if via == ByEmail then EmailMessage else PhoneMessage)
  {
    if value == [] then RequiredMessage
    else if via == ByEmail && !ValidateEmail(value) then EmailMessage
    else if via == ByWhatsApp && !ValidatePhone(value) then PhoneMessage
    else prior
  }

  /** The component's own state and the value it is shown. */
  datatype Field = Field(value: string, error: string, selectedCode: string)

  function Mount(value: string): Field {
    Field(value, "", "+91")
  }

  datatype Event = Change(v: string) | SelectCode(code: string) | Blur

  /** Typing clears the error; choosing a code rewrites the value but keeps
      the error; leaving the field re-checks it. */
  function Handle(f: Field, via: DeliveryMethod, e: Event): Field {
    match e
    case Change(v) => f.(value := v, error := "")
    case SelectCode(code) => f.(value := HandleCountrySelect(f.value, code), selectedCode := code)
    case Blur => f.(error := BlurError(via, f.value, f.error))
  }
}

/** Properties of the contact field. */
module ContactInputProperties {

  import opened Text
  import opened Decimal
  import opened Domain
  import opened Validation
  import opened ContactInput

  lemma CountryCodesAreCodes()
    ensures forall i :: 0 <= i < |CountryCodes| ==> IsCountryCode(CountryCodes[i])
  {
  }

  /** Digits followed by a non-digit: the leading digits are exactly them. */
  lemma {:induction false} LeadingDigitsStop(d: string, t: string)
    requires AllDigits(d)
    requires t == [] || !IsDigit(t[0])
    ensures LeadingDigits(d + t) == d
  {
    if d == [] {
      assert d + t == t;
    } else {
      assert (d + t)[1..] == d[1..] + t;
      LeadingDigitsStop(d[1..], t);
    }
  }

  /** A value the field produced strips back to the number behind the code. */
  lemma StripSelected(code: string, rest: string)
    requires IsCountryCode(code)
    ensures StripCode(code + " " + rest) == rest
  {
    var v := code + " " + rest;
    assert v[0] == '+' && v[1] == code[1];
    assert v[1..] == code[1..] + (" " + rest);
    LeadingDigitsStop(code[1..], " " + rest);
    assert v[|code|..] == " " + rest;
    assert (" " + rest)[1..] == rest;
  }

  /** Choosing a code twice is the same as choosing the second directly:
      the first code is replaced, never stacked. */
  lemma CountrySelectReplaces(value: string, first: string, second: string)
    requires IsCountryCode(first) && IsCountryCode(second)
    ensures HandleCountrySelect(HandleCountrySelect(value, first), second)
         == HandleCountrySelect(value, second)
  {
    var rest := Trim(StripCode(value));
    if rest != [] {
      StripSelected(first, rest);
      TrimOfTrimmed(rest);
    } else {
      assert first + " " + rest == first + " ";
      StripSelected(first, rest);
      assert Trim([]) == [];
    }
  }

  lemma SelectDigits(digits: string, code: string)
    requires AllDigits(digits) && digits != []
    ensures HandleCountrySelect(digits, code) == code + " " + digits
  {
    assert !IsWhitespace(digits[0]) && !IsWhitespace(digits[|digits| - 1]);
    TrimOfTrimmed(digits);
  }

  lemma DigitNotWhitespace(c: char)
    requires IsDigit(c)
    ensures NotWhitespace(c)
  {
  }

  /** Whitespace is removed piecewise: what survives of a concatenation is
      what survives of each part, in order. */
  lemma RemoveWhitespaceAppend(a: string, b: string)
    ensures RemoveWhitespace(a + b) == RemoveWhitespace(a) + RemoveWhitespace(b)
  {
    FilterAppend(NotWhitespace, a, b);
  }

  /** A single character is dropped exactly when it is whitespace. */
  lemma RemoveWhitespaceChar(c: char)
    ensures RemoveWhitespace([c]) == if IsWhitespace(c) then [] else [c]
  {
  }

  /** Removing whitespace leaves a string of digits unchanged. */
  lemma DigitsKept(s: string)
    requires AllDigits(s)
    ensures RemoveWhitespace(s) == s
  {
    forall i | 0 <= i < |s| ensures NotWhitespace(s[i]) {
      DigitNotWhitespace(s[i]);
    }
    FilterAllKept(NotWhitespace, s);
  }

  /** Removing whitespace leaves a country code unchanged. */
  lemma CodeKept(code: string)
    requires IsCountryCode(code)
    ensures RemoveWhitespace(code) == code
  {
    var plus, digits := code[..1], code[1..];
    assert code == plus + digits;
    FilterAppend(NotWhitespace, plus, digits);
    assert Filter(NotWhitespace, plus) == plus;
    DigitsKept(digits);
  }

  lemma JoinWithoutSpace(code: string, digits: string)
    requires IsCountryCode(code) && AllDigits(digits)
    ensures RemoveWhitespace(code + " " + digits) == code + digits
  {
    assert code + " " + digits == code + (" " + digits);
    FilterAppend(NotWhitespace, code, " " + digits);
    FilterAppend(NotWhitespace, " ", digits);
    assert Filter(NotWhitespace, " ") == [];
    CodeKept(code);
    DigitsKept(digits);
  }

  /** A national number of digits typed without a code becomes a valid
      WhatsApp number by choosing a code exactly when code and number
      together have at least ten digits. */
  lemma SelectedNumberValid(digits: string, code: string)
    requires IsCountryCode(code) && AllDigits(digits) && digits != []
    ensures ValidatePhone(HandleCountrySelect(digits, code)) <==> |code| + |digits| >= 11
  {
    var r := HandleCountrySelect(digits, code);
    SelectDigits(digits, code);
    JoinWithoutSpace(code, digits);
    assert RemoveWhitespace(r) == code + digits;
    CodeAndDigits(code, digits);
  }

  lemma CodeAndDigits(code: string, digits: string)
    requires IsCountryCode(code) && AllDigits(digits)
    ensures IsPhoneNumber(code + digits) <==> |code| + |digits| >= 11
  {
    var s := code + digits;
    assert s[0] == '+';
    assert s[1..] == code[1..] + digits;
  }

  /** After an edit, leaving the field shows no error exactly when the
      value is valid for the method. */
  lemma EditThenBlur(f: Field, via: DeliveryMethod, v: string)
    ensures var g := Handle(Handle(f, via, Change(v)), via, Blur);
      g.value == v && (g.error == "" <==> IsValid(via, v))
  {
    if v == [] {
      assert !HasEmailShape(v);
      assert RemoveWhitespace(v) == [];
    }
  }

  /** Leaving the field with a valid value does not clear an earlier error;
      only typing does. */
  lemma ValidBlurKeepsError(f: Field, via: DeliveryMethod)
    requires f.value != [] && IsValid(via, f.value)
    ensures Handle(f, via, Blur) == f
    ensures Handle(f, via, Change(f.value)).error == ""
  {
  }

  /** Choosing a code never touches the error. */
  lemma SelectKeepsError(f: Field, via: DeliveryMethod, code: string)
    ensures Handle(f, via, SelectCode(code)).error == f.error
    ensures Handle(f, via, SelectCode(code)).selectedCode == code
  {
  }

  /** An address the route accepts passes the client's pattern; the client
      has no length bound. */
  lemma RouteValidIsClientValid(e: string)
    ensures IsValidEmail(e) ==> ValidateEmail(e)
    ensures ValidateEmail(e) && |e| <= 254 ==> IsValidEmail(e)
  {
  }
}
