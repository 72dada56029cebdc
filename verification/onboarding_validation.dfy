/**
  The registration-form checks of the member-onboarding page
  (src/pages/admin/OnboardingPage.tsx, validateForm). Each regular expression the
  form uses is given twice: as the language it denotes (a ghost predicate built
  from concatenation, the way the pattern reads) and as a direct check on the
  characters; a lemma shows the two agree on every string.
*/
module OnboardingValidation {
  import opened Domain
  import opened Text

  predicate AllDigits(s: string) {
    forall i :: 0 <= i < |s| ==> IsDigit(s[i])
  }

  predicate AllUpper(s: string) {
    forall i :: 0 <= i < |s| ==> IsUpperLetter(s[i])
  }

  // ---------------------------------------------------------------------------
  // Phone: /^\+256[0-9]{9}$/

  /** The strings the pattern matches: `+256` followed by exactly nine digits. */
  ghost predicate InPhoneLanguage(s: string) {
    exists d :: |d| == 9 && AllDigits(d) && s == "+256" + d
  }

  predicate IsUgandaPhone(s: string) {
    |s| == 13 && s[0] == '+' && s[1] == '2' && s[2] == '5' && s[3] == '6' && AllDigits(s[4..])
  }

  lemma UgandaPhoneMatchesPattern(s: string)
    ensures IsUgandaPhone(s) <==> InPhoneLanguage(s)
  {
    if IsUgandaPhone(s) {
      assert s == "+256" + s[4..];
    }
    if InPhoneLanguage(s) {
      var d :| |d| == 9 && AllDigits(d) && s == "+256" + d;
      assert s[4..] == d;
    }
  }

  // ---------------------------------------------------------------------------
  // National ID: /^CM[0-9]{8}[A-Z]{4}$/

  /** The strings the pattern matches: `CM`, eight digits, four capital letters. */
  ghost predicate InNationalIdLanguage(s: string) {
    exists d, l :: |d| == 8 && AllDigits(d) && |l| == 4 && AllUpper(l) && s == "CM" + d + l
  }

  predicate IsNationalId(s: string) {
    |s| == 14 && s[0] == 'C' && s[1] == 'M' && AllDigits(s[2..10]) && AllUpper(s[10..])
  }

  lemma NationalIdMatchesPattern(s: string)
    ensures IsNationalId(s) <==> InNationalIdLanguage(s)
  {
    if IsNationalId(s) {
      assert s == "CM" + s[2..10] + s[10..];
    }
    if InNationalIdLanguage(s) {
      var d, l :| |d| == 8 && AllDigits(d) && |l| == 4 && AllUpper(l) && s == "CM" + d + l;
      assert s[2..10] == d;
      assert s[10..] == l;
    }
  }

  /** The ID number of the first sample application has the expected shape. */
  lemma SampleNationalIdAccepted()
    ensures InNationalIdLanguage("CM90123456ABCD")
  {
    NationalIdMatchesPattern("CM90123456ABCD");
  }

  // ---------------------------------------------------------------------------
  // Email: /^[^\s@]+@[^\s@]+\.[^\s@]+$/

  predicate NoSpaceOrAt(x: string) {
    forall i :: 0 <= i < |x| ==> !IsJsSpace(x[i]) && x[i] != '@'
  }

  /** `[^\s@]+`: a non-empty run of characters that are neither white space nor `@`. */
  ghost predicate Atom(x: string) {
    x != [] && NoSpaceOrAt(x)
  }

  /** The strings the pattern matches: `local@domain.tld`, each part an atom
      (the domain part may itself hold further dots). */
  ghost predicate InEmailLanguage(s: string) {
    exists a, b, c :: Atom(a) && Atom(b) && Atom(c) && s == a + "@" + b + "." + c
  }

  /** The index of the first occurrence of `c` in `s`. */
  function IndexOf(s: string, c: char): (r: Option<nat>)
    ensures r.Some? ==> r.value < |s| && s[r.value] == c && c !in s[..r.value]
    ensures r.None? ==> c !in s
  {
    if s == [] then None
    else if s[0] == c then Some(0)
    else
      match IndexOf(s[1..], c)
      case None => None
      case Some(k) =>
        assert s[..k + 1] == [s[0]] + s[1..][..k];
        Some(k + 1)
  }

  /** One `@` with a non-empty local part before it; after it, no further `@`,
      no white space, and a dot with at least one character on either side. */
  predicate IsEmailShape(s: string) {
    match IndexOf(s, '@')
    case None => false
    case Some(k) =>
      var local := s[..k];
      var domain := s[k + 1..];
      local != [] && NoSpaceOrAt(local) && NoSpaceOrAt(domain)
      && |domain| >= 3 && '.' in domain[1..|domain| - 1]
  }

  lemma NoSpaceOrAtSlice(x: string, lo: int, hi: int)
    requires NoSpaceOrAt(x) && 0 <= lo <= hi <= |x|
    ensures NoSpaceOrAt(x[lo..hi])
  {
    assert forall i :: 0 <= i < hi - lo ==> x[lo..hi][i] == x[lo + i];
  }

  lemma EmailShapeInLanguage(s: string)
    requires IsEmailShape(s)
    ensures InEmailLanguage(s)
  {
    var k := IndexOf(s, '@').value;
    var a := s[..k];
    var domain := s[k + 1..];
    var inner := domain[1..|domain| - 1];
    var j :| 0 <= j < |inner| && inner[j] == '.';
    var m := j + 1;
    assert domain[m] == '.';
    NoSpaceOrAtSlice(domain, 0, m);
    NoSpaceOrAtSlice(domain, m + 1, |domain|);
    var b := domain[..m];
    var c := domain[m + 1..|domain|];
    assert domain == b + "." + c;
    assert s == a + "@" + domain;
    assert Atom(a) && Atom(b) && Atom(c);
    assert s == a + "@" + b + "." + c;
  }

  lemma EmailLanguageHasShape(s: string)
    requires InEmailLanguage(s)
    ensures IsEmailShape(s)
  {
    var a, b, c :| Atom(a) && Atom(b) && Atom(c) && s == a + "@" + b + "." + c;
    assert s[|a|] == '@';
    var r := IndexOf(s, '@');
    assert r.Some?;
    var k := r.value;
    assert forall i :: 0 <= i < |a| ==> s[i] == a[i];
    assert k <= |a|;
    assert k == |a|;
    assert s[..k] == a;
    var domain := s[k + 1..];
    assert domain == b + "." + c;
    assert NoSpaceOrAt(domain) by {
      forall i | 0 <= i < |domain| ensures !IsJsSpace(domain[i]) && domain[i] != '@' {
        if i < |b| {
          assert domain[i] == b[i];
        } else if i > |b| {
          assert domain[i] == c[i - |b| - 1];
        }
      }
    }
    assert domain[1..|domain| - 1][|b| - 1] == '.';
  }

  lemma EmailMatchesPattern(s: string)
    ensures IsEmailShape(s) <==> InEmailLanguage(s)
  {
    if IsEmailShape(s) {
      EmailShapeInLanguage(s);
    }
    if InEmailLanguage(s) {
      EmailLanguageHasShape(s);
    }
  }

  // ---------------------------------------------------------------------------
  // The whole form

  /** The registration form's text fields, as typed. */
  datatype RegistrationForm = RegistrationForm(
    firstName: string, lastName: string, dateOfBirth: string, gender: string,
    phoneNumber: string, email: string, address: string, idNumber: string,
    monthlyIncome: string, employmentStatus: string, employerName: string)

  /** The three required uploads, each the object URL of the chosen file or none. */
  datatype Uploads = Uploads(nationalIdFront: Option<string>, nationalIdBack: Option<string>,
                             passportPhoto: Option<string>)

  const EmptyForm := RegistrationForm("", "", "", "male", "", "", "", "", "", "employed", "")
  const NoUploads := Uploads(None, None, None)

  /** The messages the rules record. */
  datatype Message = FirstNameRequired | LastNameRequired | DateOfBirthRequired | PhoneRequired
                   | IdRequired | PhoneInvalid | IdInvalid | EmailInvalid | IncomeNotNumber
                   | FrontRequired | BackRequired | PhotoRequired

  /** The text the page shows for each message. */
  function MessageText(m: Message): string {
    match m
    case FirstNameRequired => "First name is required"
    case LastNameRequired => "Last name is required"
    case DateOfBirthRequired => "Date of birth is required"
    case PhoneRequired => "Phone number is required"
    case IdRequired => "National ID number is required"
    case PhoneInvalid => "Enter a valid Ugandan phone number (+256XXXXXXXXX)"
    case IdInvalid => "Enter a valid Ugandan National ID (e.g. CM86022103YAJL)"
    case EmailInvalid => "Enter a valid email address"
    case IncomeNotNumber => "Monthly income must be a number"
    case FrontRequired => "National ID front scan is required"
    case BackRequired => "National ID back scan is required"
    case PhotoRequired => "Passport photo is required"
  }

  /** The keys of the error record: the fields a rule can flag. */
  datatype Field = FirstName | LastName | DateOfBirth | PhoneNumber | IdNumber | Email
                 | MonthlyIncome | NationalIdFront | NationalIdBack | PassportPhoto

  /** A form the page accepts: the five required fields present, phone and ID in
      the patterns' languages, an email either empty or in its language, an income
      either empty or numeric, and all three documents uploaded. `incomeIsNaN`
      stands for `isNaN(Number(monthlyIncome))`. */
  ghost predicate FormAccepted(form: RegistrationForm, files: Uploads, incomeIsNaN: bool) {
    form.firstName != [] && form.lastName != [] && form.dateOfBirth != []
    && InPhoneLanguage(form.phoneNumber) && InNationalIdLanguage(form.idNumber)
    && (form.email == [] || InEmailLanguage(form.email))
    && (form.monthlyIncome == [] || !incomeIsNaN)
    && files.nationalIdFront.Some? && files.nationalIdBack.Some? && files.passportPhoto.Some?
  }

  /** The same condition, stated with the direct character checks the page runs. */
  predicate ChecksPass(form: RegistrationForm, files: Uploads, incomeIsNaN: bool) {
    form.firstName != [] && form.lastName != [] && form.dateOfBirth != []
    && IsUgandaPhone(form.phoneNumber) && IsNationalId(form.idNumber)
    && (form.email == [] || IsEmailShape(form.email))
    && (form.monthlyIncome == [] || !incomeIsNaN)
    && files.nationalIdFront.Some? && files.nationalIdBack.Some? && files.passportPhoto.Some?
  }

  /** The direct checks accept exactly the forms the patterns accept. */
  lemma ChecksPassIffFormAccepted(form: RegistrationForm, files: Uploads, incomeIsNaN: bool)
    ensures ChecksPass(form, files, incomeIsNaN) <==> FormAccepted(form, files, incomeIsNaN)
  {
    UgandaPhoneMatchesPattern(form.phoneNumber);
    NationalIdMatchesPattern(form.idNumber);
    EmailMatchesPattern(form.email);
  }

  /** The record after the required-field rules: the five required fields flagged
      exactly when empty, nothing else. */
  predicate RequiredFlags(form: RegistrationForm, errors: map<Field, Message>) {
    (FirstName in errors <==> form.firstName == [])
    && (LastName in errors <==> form.lastName == [])
    && (DateOfBirth in errors <==> form.dateOfBirth == [])
    && (PhoneNumber in errors <==> form.phoneNumber == [])
    && (PhoneNumber in errors ==> errors[PhoneNumber] == PhoneRequired)
    && (IdNumber in errors <==> form.idNumber == [])
    && (IdNumber in errors ==> errors[IdNumber] == IdRequired)
    && Email !in errors && MonthlyIncome !in errors
    && NationalIdFront !in errors && NationalIdBack !in errors && PassportPhoto !in errors
  }

  /** The record after the format rules as well: phone and ID flagged exactly when
      they do not match their patterns (an empty one keeps its required-field
      message), email and income flagged by their own rules, no upload flagged. */
  predicate FormatFlags(form: RegistrationForm, incomeIsNaN: bool, errors: map<Field, Message>) {
    (FirstName in errors <==> form.firstName == [])
    && (LastName in errors <==> form.lastName == [])
    && (DateOfBirth in errors <==> form.dateOfBirth == [])
    && (PhoneNumber in errors <==> !IsUgandaPhone(form.phoneNumber))
    && (PhoneNumber in errors ==>
          errors[PhoneNumber] == (if form.phoneNumber == [] then PhoneRequired else PhoneInvalid))
    && (IdNumber in errors <==> !IsNationalId(form.idNumber))
    && (IdNumber in errors ==>
          errors[IdNumber] == (if form.idNumber == [] then IdRequired else IdInvalid))
    && (Email in errors <==> form.email != [] && !IsEmailShape(form.email))
    && (MonthlyIncome in errors <==> form.monthlyIncome != [] && incomeIsNaN)
    && NationalIdFront !in errors && NationalIdBack !in errors && PassportPhoto !in errors
  }

  /** The error record flags exactly the fields whose check fails, with the
      required-field message on an empty phone or ID and the format message on a
      malformed one. */
  predicate Flags(form: RegistrationForm, files: Uploads, incomeIsNaN: bool, errors: map<Field, Message>) {
    (FirstName in errors <==> form.firstName == [])
    && (LastName in errors <==> form.lastName == [])
    && (DateOfBirth in errors <==> form.dateOfBirth == [])
    && (PhoneNumber in errors <==> !IsUgandaPhone(form.phoneNumber))
    && (PhoneNumber in errors ==>
          errors[PhoneNumber] == (if form.phoneNumber == [] then PhoneRequired else PhoneInvalid))
    && (IdNumber in errors <==> !IsNationalId(form.idNumber))
    && (IdNumber in errors ==>
          errors[IdNumber] == (if form.idNumber == [] then IdRequired else IdInvalid))
    && (Email in errors <==> form.email != [] && !IsEmailShape(form.email))
    && (MonthlyIncome in errors <==> form.monthlyIncome != [] && incomeIsNaN)
    && (NationalIdFront in errors <==> files.nationalIdFront.None?)
    && (NationalIdBack in errors <==> files.nationalIdBack.None?)
    && (PassportPhoto in errors <==> files.passportPhoto.None?)
  }

  /** The required-field rules: first name, last name, date of birth, phone and ID number. */
  method CheckRequired(form: RegistrationForm) returns (errors: map<Field, Message>)
    ensures RequiredFlags(form, errors)
  {
    errors := map[];
    if form.firstName == [] { errors := errors[FirstName := FirstNameRequired]; }
    if form.lastName == [] { errors := errors[LastName := LastNameRequired]; }
    if form.dateOfBirth == [] { errors := errors[DateOfBirth := DateOfBirthRequired]; }
    if form.phoneNumber == [] { errors := errors[PhoneNumber := PhoneRequired]; }
    if form.idNumber == [] { errors := errors[IdNumber := IdRequired]; }
  }

  /** The format rules, each checked only on a non-empty field: phone and ID
      patterns, email shape, numeric income. */
  method CheckFormats(form: RegistrationForm, incomeIsNaN: bool, errors: map<Field, Message>)
    returns (out: map<Field, Message>)
    requires RequiredFlags(form, errors)
    ensures FormatFlags(form, incomeIsNaN, out)
  {
    out := errors;
    if form.phoneNumber != [] && !IsUgandaPhone(form.phoneNumber) {
      out := out[PhoneNumber := PhoneInvalid];
    }
    if form.idNumber != [] && !IsNationalId(form.idNumber) {
      out := out[IdNumber := IdInvalid];
    }
    if form.email != [] && !IsEmailShape(form.email) {
      out := out[Email := EmailInvalid];
    }
    if form.monthlyIncome != [] && incomeIsNaN {
      out := out[MonthlyIncome := IncomeNotNumber];
    }
  }

  /** The upload rules: each of the three documents is required. */
  method CheckUploads(form: RegistrationForm, files: Uploads, incomeIsNaN: bool, errors: map<Field, Message>)
    returns (out: map<Field, Message>)
    requires FormatFlags(form, incomeIsNaN, errors)
    ensures Flags(form, files, incomeIsNaN, out)
  {
    out := errors;
    if files.nationalIdFront.None? { out := out[NationalIdFront := FrontRequired]; }
    if files.nationalIdBack.None? { out := out[NationalIdBack := BackRequired]; }
    if files.passportPhoto.None? { out := out[PassportPhoto := PhotoRequired]; }
  }

  /** An error record that flags exactly the fields whose check fails is empty
      exactly when every check passes. */
  lemma ErrorsMeaning(form: RegistrationForm, files: Uploads, incomeIsNaN: bool,
                      errors: map<Field, Message>)
    requires Flags(form, files, incomeIsNaN, errors)
    ensures errors == map[] <==> ChecksPass(form, files, incomeIsNaN)
  {
    if ChecksPass(form, files, incomeIsNaN) {
      forall g ensures g !in errors {
        match g
        case FirstName =>
        case LastName =>
        case DateOfBirth =>
        case PhoneNumber =>
        case IdNumber =>
        case Email =>
        case MonthlyIncome =>
        case NationalIdFront =>
        case NationalIdBack =>
        case PassportPhoto =>
      }
    }
  }

  /** Runs the required-field, format and upload rules in that order, recording
      one message per failing field (a format message replaces a required one on
      the same field), and reports success exactly when no rule fired. */
  method ValidateForm(form: RegistrationForm, files: Uploads, incomeIsNaN: bool)
    returns (errors: map<Field, Message>, ok: bool)
    ensures Flags(form, files, incomeIsNaN, errors)
    ensures ok <==> errors == map[]
    ensures ok <==> ChecksPass(form, files, incomeIsNaN)
  {
    var required := CheckRequired(form);
    var formats := CheckFormats(form, incomeIsNaN, required);
    errors := CheckUploads(form, files, incomeIsNaN, formats);
    ErrorsMeaning(form, files, incomeIsNaN, errors);
    ok := errors == map[];
  }
}
