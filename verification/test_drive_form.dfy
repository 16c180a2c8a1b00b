/** The test-drive booking form: its eight fields, the validation rules with
    their messages, and the handlers that update the form's state. */
module TestDriveInputForm {
  import opened Common
  import opened Text

  /** The inputs of the form, named as in its state record. */
  datatype Field = UserName | Email | CountryCode | Phone | Address | City | Pincode | Dob

  /** The fields validation checks, in the order it checks them; the country
      code is never checked. */
  const CheckedFields: seq<Field> := [UserName, Email, Phone, Address, City, Pincode, Dob]

  /** The form's `formData` record. */
  datatype FormData = FormData(
    userName: string,
    email: string,
    countryCode: string,
    phone: string,
    address: string,
    city: string,
    pincode: string,
    dob: string)

  /** The record the form starts with: every field empty except the country code. */
  const InitialFormData: FormData := FormData("", "", "+91", "", "", "", "", "")

  /** `formData[name]`. */
  function Get(data: FormData, f: Field): string
  {
    match f
    case UserName => data.userName
    case Email => data.email
    case CountryCode => data.countryCode
    case Phone => data.phone
    case Address => data.address
    case City => data.city
    case Pincode => data.pincode
    case Dob => data.dob
  }

  /** `{ ...data, [name]: value }`: field f becomes v and every other field stays. */
  function Set(data: FormData, f: Field, v: string): (r: FormData)
    ensures forall g :: Get(r, g) == if g == f then v else Get(data, g)
  {
    match f
    case UserName => data.(userName := v)
    case Email => data.(email := v)
    case CountryCode => data.(countryCode := v)
    case Phone => data.(phone := v)
    case Address => data.(address := v)
    case City => data.(city := v)
    case Pincode => data.(pincode := v)
    case Dob => data.(dob := v)
  }

  // ---------------------------------------------------------------------
  // Format checks

  /** `/^\d{10}$/.test(s)`. */
  predicate IsTenDigits(s: string)
  {
    |s| == 10 && AllDigits(s)
  }

  /** `/^\d{6}$/.test(s)`. */
  predicate IsSixDigits(s: string)
  {
    |s| == 6 && AllDigits(s)
  }

  predicate NoSpace(s: string)
  {
    forall i :: 0 <= i < |s| ==> !IsSpace(s[i])
  }

  /** s[a..e] is a non-empty run without white space, an '@' at p, another
      such run, a '.' at q, and a third such run. */
  predicate EmailAt(s: string, a: int, p: int, q: int, e: int)
  {
    && 0 <= a < p && p + 1 < q && q + 1 < e <= |s|
    && s[p] == '@' && s[q] == '.'
    && NoSpace(s[a..p]) && NoSpace(s[p + 1..q]) && NoSpace(s[q + 1..e])
  }

  /** What `/\S+@\S+\.\S+/.test(s)` means: the pattern is not anchored, so it
      matches when some block of s has that form. */
  predicate MatchesEmailPattern(s: string)
  {
    exists a, p, q, e | 0 <= a <= |s| && 0 <= p <= |s| && 0 <= q <= |s| && 0 <= e <= |s| :: EmailAt(s, a, p, q, e)
  }

  /** An '@' at p with a non-space character before it, then a '.' at q two
      or more places later with nothing but non-space characters in between,
      followed by a non-space character. */
  predicate MarkersAt(s: string, p: int, q: int)
  {
    && 0 < p && p + 1 < q && q + 1 < |s|
    && s[p] == '@' && s[q] == '.'
    && !IsSpace(s[p - 1]) && NoSpace(s[p + 1..q]) && !IsSpace(s[q + 1])
  }

  /** The same test, read locally around the '@' and the '.'. */
  predicate EmailTest(s: string)
  {
    exists p, q | 0 <= p <= |s| && 0 <= q <= |s| :: MarkersAt(s, p, q)
  }

  /** The local test accepts exactly the strings the pattern matches. */
  lemma EmailTestIsPattern(s: string)
    ensures EmailTest(s) <==> MatchesEmailPattern(s)
  {
    if EmailTest(s) {
      var p, q :| 0 <= p <= |s| && 0 <= q <= |s| && MarkersAt(s, p, q);
      assert s[p - 1..p] == [s[p - 1]];
      assert s[q + 1..q + 2] == [s[q + 1]];
      assert EmailAt(s, p - 1, p, q, q + 2);
    }
    if MatchesEmailPattern(s) {
      var a, p, q, e :| 0 <= a <= |s| && 0 <= p <= |s| && 0 <= q <= |s| && 0 <= e <= |s| && EmailAt(s, a, p, q, e);
      assert s[a..p][p - 1 - a] == s[p - 1];
      assert s[q + 1..e][0] == s[q + 1];
      assert MarkersAt(s, p, q);
    }
  }

  // ---------------------------------------------------------------------
  // Validation

  /** The message validation records for field f, if any. */
  function FieldError(data: FormData, f: Field): (r: Option<string>)
    ensures f == CountryCode ==> r.None?
    ensures f == Email ==> (r.None? <==> data.email != "" && MatchesEmailPattern(data.email))
    ensures f == Phone ==> (r.None? <==> IsTenDigits(data.phone))
    ensures f == Pincode ==> (r.None? <==> IsSixDigits(data.pincode))
    ensures f in {UserName, Address, City, Dob} ==> (r.None? <==> Get(data, f) != "")
  {
    match f
    case UserName => if data.userName == "" then Some("Name is required") else None
    case Email =>
      if data.email == "" then Some("Email is required")
      else if !MatchesEmailPattern(data.email) then Some("Email is invalid")
      else None
    case CountryCode => None
    case Phone =>
      if data.phone == "" then Some("Phone is required")
      else if !IsTenDigits(data.phone) then Some("Phone must be 10 digits")
      else None
    case Address => if data.address == "" then Some("Address is required") else None
    case City => if data.city == "" then Some("City is required") else None
    case Pincode =>
      if data.pincode == "" then Some("Pincode is required")
      else if !IsSixDigits(data.pincode) then Some("Pincode must be 6 digits")
      else None
    case Dob => if data.dob == "" then Some("Date of Birth is required") else None
  }

  /** The errors record validation produces: one entry per failing field. */
  function ExpectedErrors(data: FormData): (errors: map<Field, string>)
    ensures forall f :: f in errors <==> FieldError(data, f).Some?
    ensures forall f :: f in errors ==> errors[f] == FieldError(data, f).value
  {
    assert forall f :: f != CountryCode ==> f in CheckedFields;
    ErrorsOf(data, CheckedFields)
  }

  /** A form is accepted exactly when every required field is filled in and
      the email, phone and pincode have the right form. */
  lemma FormAcceptedIff(data: FormData)
    ensures ExpectedErrors(data) == map[] <==>
              && data.userName != "" && data.email != "" && MatchesEmailPattern(data.email)
              && IsTenDigits(data.phone) && data.address != "" && data.city != ""
              && IsSixDigits(data.pincode) && data.dob != ""
  {
    var errs := ExpectedErrors(data);
    if errs == map[] {
      forall f | f in CheckedFields
        ensures FieldError(data, f).None?
      {
        assert f !in errs;
      }
      assert CheckedFields[0] == UserName && CheckedFields[1] == Email && CheckedFields[2] == Phone;
      assert CheckedFields[3] == Address && CheckedFields[4] == City;
      assert CheckedFields[5] == Pincode && CheckedFields[6] == Dob;
      assert FieldError(data, UserName).None?;
      assert FieldError(data, Email).None?;
      assert FieldError(data, Phone).None?;
      assert FieldError(data, Address).None?;
      assert FieldError(data, City).None?;
      assert FieldError(data, Pincode).None?;
      assert FieldError(data, Dob).None?;
    } else {
      var f :| f in errs;
      assert FieldError(data, f).Some?;
    }
  }

  /** The email entry: "Email is required" exactly for an empty email,
      "Email is invalid" exactly for a non-empty one the pattern rejects,
      and no entry otherwise. */
  lemma EmailErrorCases(data: FormData)
    ensures (Email in ExpectedErrors(data) && ExpectedErrors(data)[Email] == "Email is required") <==> data.email == ""
    ensures (Email in ExpectedErrors(data) && ExpectedErrors(data)[Email] == "Email is invalid") <==>
              data.email != "" && !MatchesEmailPattern(data.email)
    ensures Email !in ExpectedErrors(data) <==> data.email != "" && MatchesEmailPattern(data.email)
  {
    assert Email in CheckedFields;
  }

  /** The errors record restricted to the fields in fs. */
  function ErrorsOf(data: FormData, fs: seq<Field>): map<Field, string>
  {
    map f | f in fs && FieldError(data, f).Some? :: FieldError(data, f).value
  }

  /** Checking one more field adds its entry, if it has one. */
  lemma ErrorsOfAdd(data: FormData, fs: seq<Field>, f: Field)
    ensures ErrorsOf(data, fs + [f])
            == if FieldError(data, f).Some? then ErrorsOf(data, fs)[f := FieldError(data, f).value] else ErrorsOf(data, fs)
  {
  }

  /** Builds the errors record field by field, as `validateForm` does. */
  method CollectErrors(data: FormData) returns (newErrors: map<Field, string>)
    ensures newErrors == ExpectedErrors(data)
  {
    newErrors := map[];
    assert newErrors == ErrorsOf(data, []);
    assert [] + [UserName] == [UserName];
    ErrorsOfAdd(data, [], UserName);
    if data.userName == "" {
      newErrors := newErrors[UserName := "Name is required"];
    }
    assert newErrors == ErrorsOf(data, [UserName]);
    assert [UserName] + [Email] == [UserName, Email];
    ErrorsOfAdd(data, [UserName], Email);
    if data.email == "" {
      newErrors := newErrors[Email := "Email is required"];
    } else {
      EmailTestIsPattern(data.email);
      if !EmailTest(data.email) {
        newErrors := newErrors[Email := "Email is invalid"];
      }
    }
    assert newErrors == ErrorsOf(data, [UserName, Email]);
    assert [UserName, Email] + [Phone] == [UserName, Email, Phone];
    ErrorsOfAdd(data, [UserName, Email], Phone);
    if data.phone == "" {
      newErrors := newErrors[Phone := "Phone is required"];
    } else if !IsTenDigits(data.phone) {
      newErrors := newErrors[Phone := "Phone must be 10 digits"];
    }
    assert newErrors == ErrorsOf(data, [UserName, Email, Phone]);
    assert [UserName, Email, Phone] + [Address] == [UserName, Email, Phone, Address];
    ErrorsOfAdd(data, [UserName, Email, Phone], Address);
    if data.address == "" {
      newErrors := newErrors[Address := "Address is required"];
    }
    assert newErrors == ErrorsOf(data, [UserName, Email, Phone, Address]);
    assert [UserName, Email, Phone, Address] + [City] == [UserName, Email, Phone, Address, City];
    ErrorsOfAdd(data, [UserName, Email, Phone, Address], City);
    if data.city == "" {
      newErrors := newErrors[City := "City is required"];
    }
    assert newErrors == ErrorsOf(data, [UserName, Email, Phone, Address, City]);
    assert [UserName, Email, Phone, Address, City] + [Pincode] == [UserName, Email, Phone, Address, City, Pincode];
    ErrorsOfAdd(data, [UserName, Email, Phone, Address, City], Pincode);
    if data.pincode == "" {
      newErrors := newErrors[Pincode := "Pincode is required"];
    } else if !IsSixDigits(data.pincode) {
      newErrors := newErrors[Pincode := "Pincode must be 6 digits"];
    }
    assert newErrors == ErrorsOf(data, [UserName, Email, Phone, Address, City, Pincode]);
    assert [UserName, Email, Phone, Address, City, Pincode] + [Dob] == [UserName, Email, Phone, Address, City, Pincode, Dob];
    ErrorsOfAdd(data, [UserName, Email, Phone, Address, City, Pincode], Dob);
    if data.dob == "" {
      newErrors := newErrors[Dob := "Date of Birth is required"];
    }
    assert newErrors == ErrorsOf(data, CheckedFields);
  }

  /** `if (errors[name]) errors[name] = ''`: an entry with a message is
      emptied; every other entry, and the absence of one, stays. */
  function ClearError(errors: map<Field, string>, name: Field): (r: map<Field, string>)
    ensures r.Keys == errors.Keys
    ensures forall g :: g in r && g != name ==> r[g] == errors[g]
    ensures name in r ==> r[name] == ""
  {
    if name in errors && errors[name] != "" then errors[name := ""] else errors
  }

  /** The record stored and passed on by `handleNext`: the form's data with
      the country code put in front of the phone number. */
  function WithFullPhone(data: FormData): (r: FormData)
    ensures r.phone == data.countryCode + data.phone
    ensures forall g :: g != Phone ==> Get(r, g) == Get(data, g)
  {
    data.(phone := data.countryCode + data.phone)
  }

  const ConfirmPagePath: string := "/buy/test-drive-confirmpage"

  /** A navigation to `path` carrying `userData` in its state. */
  datatype Navigation = Navigation(path: string, userData: FormData)

  /** The form component's state and handlers. `stored` is the `formData`
      entry of the session storage; `navigation` the last navigation made. */
  class TestDriveForm {
    var formData: FormData
    var errors: map<Field, string>
    var showCountryDropdown: bool
    var stored: Option<FormData>
    var navigation: Option<Navigation>

    constructor ()
      ensures formData == InitialFormData && errors == map[] && !showCountryDropdown
      ensures stored == None && navigation == None
    {
      formData := InitialFormData;
      errors := map[];
      showCountryDropdown := false;
      stored := None;
      navigation := None;
    }

    /** `validateForm`: replaces the errors with those of the current data and
      reports whether there are none. */
    method ValidateForm() returns (ok: bool)
      modifies this
      ensures errors == ExpectedErrors(formData)
      ensures ok <==> errors == map[]
      ensures formData == old(formData) && showCountryDropdown == old(showCountryDropdown)
      ensures stored == old(stored) && navigation == old(navigation)
    {
      var newErrors := CollectErrors(formData);
      errors := newErrors;
      ok := |newErrors| == 0;
    }

    /** `handleChange`: sets the named field and empties that field's error
      if it had one; nothing else changes. */
    method HandleChange(name: Field, value: string)
      modifies this
      ensures formData == Set(old(formData), name, value)
      ensures errors == ClearError(old(errors), name)
      ensures showCountryDropdown == old(showCountryDropdown)
      ensures stored == old(stored) && navigation == old(navigation)
    {
      formData := Set(formData, name, value);
      if name in errors && errors[name] != "" {
        errors := errors[name := ""];
      }
    }

    /** `handleCountryCodeSelect`: sets the country code and closes the dropdown. */
    method HandleCountryCodeSelect(code: string)
      modifies this
      ensures formData == Set(old(formData), CountryCode, code)
      ensures !showCountryDropdown
      ensures errors == old(errors) && stored == old(stored) && navigation == old(navigation)
    {
      formData := formData.(countryCode := code);
      showCountryDropdown := false;
    }

    /** `handleNext`: validates, and only when the form is accepted stores the
      data with the full phone number and navigates to the confirmation page
      with it. */
    method HandleNext() returns (ok: bool)
      modifies this
      ensures formData == old(formData) && showCountryDropdown == old(showCountryDropdown)
      ensures errors == ExpectedErrors(formData)
      ensures ok <==> ExpectedErrors(formData) == map[]
      ensures ok ==> stored == Some(WithFullPhone(formData))
                     && navigation == Some(Navigation(ConfirmPagePath, WithFullPhone(formData)))
      ensures !ok ==> stored == old(stored) && navigation == old(navigation)
    {
      ok := ValidateForm();
      if ok {
        var dataToStore := WithFullPhone(formData);
        stored := Some(dataToStore);
        navigation := Some(Navigation(ConfirmPagePath, dataToStore));
      }
    }
  }
}
