/** TempEnrollmentData: the enrollee record the enroll flow fills in. Java
    null is None; a NumberFormatException from a parse is the `false`
    result, raised before any field is assigned. The getters are the
    fields. */
module Enrollment {
  import opened Text

  /** String.format("%s %s %s", first, middle, last). */
  function FullName(first: string, middle: string, last: string): (r: string)
    ensures |r| == |first| + |middle| + |last| + 2
  {
    first + " " + middle + " " + last
  }

  /** The three name parts can be read back from the full name when none
      of them is empty or holds a space. */
  lemma FullNameParts(first: string, middle: string, last: string)
    requires first != "" && middle != "" && last != ""
    requires ' ' !in first && ' ' !in middle && ' ' !in last
    ensures Split(FullName(first, middle, last), ' ') == [first, middle, last]
  {
    var parts := [first, middle, last];
    assert parts[1..] == [middle, last] && parts[1..][1..] == [last];
    assert Join([last], ' ') == last;
    assert Join(parts[1..], ' ') == middle + [' '] + last;
    assert Join(parts, ' ') == first + [' '] + (middle + [' '] + last);
    assert Join(parts, ' ') == FullName(first, middle, last);
    SplitJoin(parts, ' ');
  }

  class TempEnrollmentData {
    var fullName: Option<string>
    var fingerprintId: Option<int>
    var firstName: Option<string>
    var middleName: Option<string>
    var lastName: Option<string>
    var age: Option<int>
    var gender: Option<string>
    var phoneNumber: Option<string>
    var address: Option<string>

    constructor()
      ensures fullName == None && fingerprintId == None
      ensures firstName == None && middleName == None && lastName == None
      ensures age == None && gender == None && phoneNumber == None && address == None
    {
      fullName, fingerprintId := None, None;
      firstName, middleName, lastName := None, None, None;
      age, gender, phoneNumber, address := None, None, None, None;
    }

    /** buildEnrolleeName: stores the three parts and their full name. */
    method BuildEnrolleeName(first: string, middle: string, last: string)
      modifies this
      ensures firstName == Some(first) && middleName == Some(middle) && lastName == Some(last)
      ensures fullName == Some(FullName(first, middle, last))
      ensures fingerprintId == old(fingerprintId) && age == old(age) && gender == old(gender)
      ensures phoneNumber == old(phoneNumber) && address == old(address)
    {
      firstName := Some(first);
      middleName := Some(middle);
      lastName := Some(last);
      fullName := Some(FullName(first, middle, last));
    }

    /** buildEnrolleeInfo: the age is parsed as a short first, so an age
        that does not parse changes nothing; otherwise the parsed age and
        the other three texts are stored as given. */
    method BuildEnrolleeInfo(ageText: string, genderText: string, phone: string, addressText: string)
      returns (ok: bool)
      modifies this
      ensures ok <==> ParseShort(ageText).Some?
      ensures ok ==> age == ParseShort(ageText) && gender == Some(genderText)
      ensures ok ==> phoneNumber == Some(phone) && address == Some(addressText)
      ensures !ok ==> age == old(age) && gender == old(gender)
      ensures !ok ==> phoneNumber == old(phoneNumber) && address == old(address)
      ensures fullName == old(fullName) && fingerprintId == old(fingerprintId)
      ensures firstName == old(firstName) && middleName == old(middleName) && lastName == old(lastName)
    {
      var parsed := ParseShort(ageText);
      if parsed.None? {
        return false;
      }
      age := parsed;
      gender := Some(genderText);
      phoneNumber := Some(phone);
      address := Some(addressText);
      ok := true;
    }

    /** setFingerprintId: the parsed int, or no change when it does not
        parse. */
    method SetFingerprintId(text: string) returns (ok: bool)
      modifies this
      ensures ok <==> ParseInt(text).Some?
      ensures ok ==> fingerprintId == ParseInt(text)
      ensures !ok ==> fingerprintId == old(fingerprintId)
      ensures fullName == old(fullName) && age == old(age) && gender == old(gender)
      ensures phoneNumber == old(phoneNumber) && address == old(address)
      ensures firstName == old(firstName) && middleName == old(middleName) && lastName == old(lastName)
    {
      var parsed := ParseInt(text);
      if parsed.None? {
        return false;
      }
      fingerprintId := parsed;
      ok := true;
    }

    /** getFingerprintId unboxes the stored Integer: it fails (ok false)
        until an id has been stored. */
    method GetFingerprintId() returns (ok: bool, id: int)
      ensures ok <==> fingerprintId.Some?
      ensures ok ==> id == fingerprintId.value
    {
      match fingerprintId
      case None => ok, id := false, 0;
      case Some(v) => ok, id := true, v;
    }
  }
}
