/** EnrollWindow: the age, phone, fingerprint id and gender checks, the
    Submit button rule and submitValues. The layout is not modelled. The
    database lookup behind checkFingerIDExists is the set of ids already
    stored, passed to the fingerprint listener. */
module EnrollForm {
  import opened Text

  const GENDER_PLACEHOLDER: string := "Select an option..."

  /** What submitValues copies out of the form; the getters return these. */
  datatype FormValues = FormValues(
    firstName: string, middleName: string, lastName: string, age: string,
    gender: string, phoneNumber: string, address: string, fingerprintId: int)

  // ----- age: ^([1-9]|[1-9][0-9])$ -----

  predicate IsAgeText(s: string) {
    || (|s| == 1 && '1' <= s[0] <= '9')
    || (|s| == 2 && '1' <= s[0] <= '9' && IsDigit(s[1]))
  }

  /** Every accepted age is a number 1..99 written without a leading
      zero ... */
  lemma AgeTextValue(s: string)
    requires IsAgeText(s)
    ensures AllDigits(s) && 1 <= DigitsValue(s) <= 99 && s == NatToString(DigitsValue(s))
  {
    assert AllDigits(s);
    if |s| == 2 {
      TwoDigitText(s);
    } else {
      assert s[..0] == [] && s[..1] == s;
    }
  }

  /** ... and every number 1..99 written that way is accepted. */
  lemma AgeValueAccepted(n: nat)
    requires 1 <= n <= 99
    ensures IsAgeText(NatToString(n))
  {
    if n >= 10 {
      var a, b := TwoDigits(n);
    }
  }

  // ----- phone: ^(09|\+639)\d{9}$ -----

  predicate IsPhoneText(s: string) {
    || (|s| == 11 && s[0] == '0' && s[1] == '9' && AllDigits(s[2..]))
    || (|s| == 13 && s[0] == '+' && s[1] == '6' && s[2] == '3' && s[3] == '9' && AllDigits(s[4..]))
  }

  /** A number is accepted in the local form exactly when it is accepted in
      the international form, and exactly when its subscriber part is nine
      digits. */
  lemma PhoneForms(x: string)
    ensures IsPhoneText("09" + x) <==> |x| == 9 && AllDigits(x)
    ensures IsPhoneText("+639" + x) <==> |x| == 9 && AllDigits(x)
  {
    assert ("09" + x)[2..] == x;
    assert ("+639" + x)[4..] == x;
  }

  // ----- fingerprint id: ^(2[0-5][0-5]|1[0-9][0-9]|[1-9][0-9]|[1-9])$ -----

  predicate IsFingerprintText(s: string) {
    || (|s| == 3 && s[0] == '2' && '0' <= s[1] <= '5' && '0' <= s[2] <= '5')
    || (|s| == 3 && s[0] == '1' && IsDigit(s[1]) && IsDigit(s[2]))
    || (|s| == 2 && '1' <= s[0] <= '9' && IsDigit(s[1]))
    || (|s| == 1 && '1' <= s[0] <= '9')
  }

  /** An accepted id text is the canonical decimal form of its value. */
  lemma FingerprintTextValue(s: string)
    requires IsFingerprintText(s)
    ensures AllDigits(s) && 1 <= DigitsValue(s) <= 255 && s == NatToString(DigitsValue(s))
    ensures ParseInt(s) == Some(DigitsValue(s))
  {
    assert AllDigits(s);
    if |s| == 3 {
      ThreeDigitText(s);
    } else if |s| == 2 {
      TwoDigitText(s);
    } else {
      assert s[..0] == [] && s[..1] == s;
    }
    var v := DigitsValue(s);
    assert IntToString(v) == s;
    ParseIntToString(v, INT_MIN, INT_MAX);
  }

  lemma ThreeDigitText(s: string)
    requires |s| == 3 && AllDigits(s) && s[0] != '0'
    ensures DigitsValue(s) == 100 * DigitValue(s[0]) + 10 * DigitValue(s[1]) + DigitValue(s[2])
    ensures s == NatToString(DigitsValue(s))
  {
    DigitsValueStep(s, 0);
    DigitsValueStep(s, 1);
    DigitsValueStep(s, 2);
    assert s[..0] == [] && s[..3] == s;
    CanonicalDigits(s);
  }

  lemma TwoDigitText(s: string)
    requires |s| == 2 && AllDigits(s) && s[0] != '0'
    ensures DigitsValue(s) == 10 * DigitValue(s[0]) + DigitValue(s[1])
    ensures s == NatToString(DigitsValue(s))
  {
    DigitsValueStep(s, 0);
    DigitsValueStep(s, 1);
    assert s[..0] == [] && s[..2] == s;
    CanonicalDigits(s);
  }

  /** The values whose decimal form is accepted: 1..199, and 200..255 only
      when the last digit is at most 5; so 0, 206 and 249 are refused
      although the pattern is documented as 0-255. */
  lemma FingerprintValues(n: nat)
    ensures IsFingerprintText(NatToString(n)) <==> 1 <= n <= 255 && (n < 200 || n % 10 <= 5)
  {
    if n < 10 {
    } else if n < 100 {
      var a, b := TwoDigits(n);
    } else if n < 1000 {
      var a, b, c := ThreeDigits(n);
    } else {
      assert |NatToString(n)| > 3 by {
        var k := NatToString(n);
        if |k| <= 3 {
          FingerprintBound(k);
        }
      }
    }
  }

  /** Three digits never denote more than 999. */
  lemma {:induction false} FingerprintBound(k: string)
    requires |k| <= 3 && AllDigits(k)
    ensures DigitsValue(k) < (if |k| == 0 then 1 else if |k| == 1 then 10 else if |k| == 2 then 100 else 1000)
  {
    if |k| > 0 {
      var prefix := k[..|k| - 1];
      assert AllDigits(prefix);
      FingerprintBound(prefix);
      assert DigitsValue(k) == DigitsValue(prefix) * 10 + DigitValue(k[|k| - 1]);
    }
  }

  lemma FingerprintExamples()
    ensures !IsFingerprintText("0") && !IsFingerprintText("206") && !IsFingerprintText("256")
    ensures IsFingerprintText("1") && IsFingerprintText("255") && IsFingerprintText("199")
  {
  }

  /** The enrollment form: its text fields, the four validity flags, the
      Submit button, and what submitValues copied. The copied values stay
      at their defaults until the form is submitted. */
  class EnrollWindow {
    var firstNameText: string
    var middleNameText: string
    var lastNameText: string
    var ageText: string
    var genderValue: string
    var phoneText: string
    var addressText: string
    var fingerprintText: string

    var validAge: bool
    var validPhone: bool
    var validFingerprint: bool
    var validGender: bool
    var submitDisabled: bool

    var values: FormValues
    var isSubmitted: bool
    var closed: bool

    /** Each flag tracks its field (the fingerprint flag also needs the id
        to be unused when it was typed), and Submit is enabled exactly when
        all four hold. */
    predicate Valid()
      reads this
    {
      && validAge == IsAgeText(ageText)
      && validPhone == IsPhoneText(phoneText)
      && (validFingerprint ==> IsFingerprintText(fingerprintText))
      && validGender == (genderValue != GENDER_PLACEHOLDER)
      && submitDisabled == !(validFingerprint && validAge && validPhone && validGender)
    }

    /** Empty fields, the placeholder selected, every flag false, Submit
        disabled and nothing submitted. */
    constructor()
      ensures ageText == "" && phoneText == "" && fingerprintText == ""
      ensures genderValue == GENDER_PLACEHOLDER
      ensures !validAge && !validPhone && !validFingerprint && !validGender
      ensures submitDisabled && !isSubmitted && !closed
      ensures Valid()
    {
      firstNameText, middleNameText, lastNameText, addressText := "", "", "", "";
      ageText, phoneText, fingerprintText := "", "", "";
      genderValue := GENDER_PLACEHOLDER;
      validAge, validPhone, validFingerprint, validGender := false, false, false, false;
      submitDisabled := true;
      values := FormValues("", "", "", "", "", "", "", 0);
      isSubmitted := false;
      closed := false;
    }

    /** updateButtonState: disable, then enable when all four flags hold. */
    method UpdateButtonState()
      modifies this
      ensures submitDisabled == !(validFingerprint && validAge && validPhone && validGender)
      ensures firstNameText == old(firstNameText) && middleNameText == old(middleNameText)
      ensures lastNameText == old(lastNameText) && addressText == old(addressText)
      ensures ageText == old(ageText) && phoneText == old(phoneText)
      ensures fingerprintText == old(fingerprintText) && genderValue == old(genderValue)
      ensures validAge == old(validAge) && validPhone == old(validPhone)
      ensures validFingerprint == old(validFingerprint) && validGender == old(validGender)
      ensures values == old(values) && isSubmitted == old(isSubmitted) && closed == old(closed)
    {
      submitDisabled := true;
      if validFingerprint && validAge && validPhone && validGender {
        submitDisabled := false;
      }
    }

    /** Typing into the fields that have no listener. */
    method EditPlainFields(first: string, middle: string, last: string, address: string)
      requires Valid()
      modifies this
      ensures Valid()
      ensures firstNameText == first && middleNameText == middle
      ensures lastNameText == last && addressText == address
      ensures ageText == old(ageText) && phoneText == old(phoneText)
      ensures fingerprintText == old(fingerprintText) && genderValue == old(genderValue)
      ensures validAge == old(validAge) && validPhone == old(validPhone)
      ensures validFingerprint == old(validFingerprint) && validGender == old(validGender)
      ensures submitDisabled == old(submitDisabled)
      ensures values == old(values) && isSubmitted == old(isSubmitted) && closed == old(closed)
    {
      firstNameText, middleNameText, lastNameText, addressText := first, middle, last, address;
    }

    /** The age field listener. */
    method EditAge(text: string)
      requires Valid()
      modifies this
      ensures Valid()
      ensures ageText == text && validAge == IsAgeText(text)
      ensures firstNameText == old(firstNameText) && middleNameText == old(middleNameText)
      ensures lastNameText == old(lastNameText) && addressText == old(addressText)
      ensures phoneText == old(phoneText) && fingerprintText == old(fingerprintText)
      ensures genderValue == old(genderValue)
      ensures validPhone == old(validPhone) && validFingerprint == old(validFingerprint)
      ensures validGender == old(validGender)
      ensures values == old(values) && isSubmitted == old(isSubmitted) && closed == old(closed)
    {
      ageText := text;
      validAge := IsAgeText(text);
      UpdateButtonState();
    }

    /** The phone field listener. */
    method EditPhone(text: string)
      requires Valid()
      modifies this
      ensures Valid()
      ensures phoneText == text && validPhone == IsPhoneText(text)
      ensures firstNameText == old(firstNameText) && middleNameText == old(middleNameText)
      ensures lastNameText == old(lastNameText) && addressText == old(addressText)
      ensures ageText == old(ageText) && fingerprintText == old(fingerprintText)
      ensures genderValue == old(genderValue)
      ensures validAge == old(validAge) && validFingerprint == old(validFingerprint)
      ensures validGender == old(validGender)
      ensures values == old(values) && isSubmitted == old(isSubmitted) && closed == old(closed)
    {
      phoneText := text;
      validPhone := IsPhoneText(text);
      UpdateButtonState();
    }

    /** The gender selection listener. */
    method SelectGender(choice: string)
      requires Valid()
      modifies this
      ensures Valid()
      ensures genderValue == choice && validGender == (choice != GENDER_PLACEHOLDER)
      ensures firstNameText == old(firstNameText) && middleNameText == old(middleNameText)
      ensures lastNameText == old(lastNameText) && addressText == old(addressText)
      ensures ageText == old(ageText) && phoneText == old(phoneText)
      ensures fingerprintText == old(fingerprintText)
      ensures validAge == old(validAge) && validPhone == old(validPhone)
      ensures validFingerprint == old(validFingerprint)
      ensures values == old(values) && isSubmitted == old(isSubmitted) && closed == old(closed)
    {
      genderValue := choice;
      validGender := choice != GENDER_PLACEHOLDER;
      UpdateButtonState();
    }

    /** The fingerprint id listener: valid only when the text matches the
        id pattern and the parsed id is not among the stored ones. */
    method EditFingerprint(text: string, storedIds: set<int>)
      requires Valid()
      modifies this
      ensures Valid()
      ensures fingerprintText == text
      ensures validFingerprint <==> IsFingerprintText(text) && ParseInt(text).Some? && ParseInt(text).value !in storedIds
      ensures firstNameText == old(firstNameText) && middleNameText == old(middleNameText)
      ensures lastNameText == old(lastNameText) && addressText == old(addressText)
      ensures ageText == old(ageText) && phoneText == old(phoneText)
      ensures genderValue == old(genderValue)
      ensures validAge == old(validAge) && validPhone == old(validPhone)
      ensures validGender == old(validGender)
      ensures values == old(values) && isSubmitted == old(isSubmitted) && closed == old(closed)
    {
      fingerprintText := text;
      validFingerprint := false;
      var validInput := IsFingerprintText(text);
      if validInput {
        FingerprintTextValue(text);
        var id := ParseInt(text).value;
        validFingerprint := id !in storedIds;
      }
      UpdateButtonState();
    }

    /** submitValues, which only an enabled Submit button can run: copies
        every field, parses the id (it always parses), closes the window and
        sets isSubmitted. */
    method SubmitValues()
      requires Valid() && !submitDisabled
      modifies this
      ensures ParseInt(fingerprintText) == Some(values.fingerprintId)
      ensures values == FormValues(firstNameText, middleNameText, lastNameText, ageText,
                                   genderValue, phoneText, addressText, values.fingerprintId)
      ensures IsAgeText(values.age) && IsPhoneText(values.phoneNumber)
      ensures values.gender != GENDER_PLACEHOLDER
      ensures 1 <= values.fingerprintId <= 255
      ensures isSubmitted && closed
      ensures firstNameText == old(firstNameText) && middleNameText == old(middleNameText)
      ensures lastNameText == old(lastNameText) && addressText == old(addressText)
      ensures ageText == old(ageText) && phoneText == old(phoneText)
      ensures fingerprintText == old(fingerprintText) && genderValue == old(genderValue)
      ensures validAge == old(validAge) && validPhone == old(validPhone)
      ensures validFingerprint == old(validFingerprint) && validGender == old(validGender)
      ensures submitDisabled == old(submitDisabled)
      ensures Valid()
    {
      FingerprintTextValue(fingerprintText);
      var id := ParseInt(fingerprintText).value;
      values := FormValues(firstNameText, middleNameText, lastNameText, ageText,
                           genderValue, phoneText, addressText, id);
      closed := true;
      isSubmitted := true;
    }
  }
}
