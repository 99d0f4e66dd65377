/**
 * The three signup validators of the repository, over one signup record:
 *  - `ValidateSignupData` (fix_user_creation_server.py) collects every error;
 *  - `ValidateFirstError` (enhanced_signup_handler.py) stops at the first;
 *  - `ValidateUserData` (debug_user_creation.py) is a looser, collecting variant.
 * All of them share the same bounds, enumerations and e-mail shape, which are
 * stated once here as `Check`s and `SignupAcceptable`.
 */
module Signup {
  import opened Wrappers
  import opened Text
  import opened Email
  import opened Ordering

  /** The seven fields of the signup form, all strings as the form sends them. */
  datatype SignupData = SignupData(
    fullName: string,
    email: string,
    password: string,
    confirmPassword: string,
    farmingExperience: string,
    farmType: string,
    location: string)

  datatype Field = FullName | EmailAddr | Password | ConfirmPassword | FarmingExperience | FarmType | Location

  /** The form key the browser sends for each field. */
  function Key(f: Field): string {
    match f
    case FullName => "fullName"
    case EmailAddr => "email"
    case Password => "password"
    case ConfirmPassword => "confirmPassword"
    case FarmingExperience => "farmingExperience"
    case FarmType => "farmType"
    case Location => "location"
  }

  function Get(d: SignupData, f: Field): string {
    match f
    case FullName => d.fullName
    case EmailAddr => d.email
    case Password => d.password
    case ConfirmPassword => d.confirmPassword
    case FarmingExperience => d.farmingExperience
    case FarmType => d.farmType
    case Location => d.location
  }

  /** The required fields, in the order both server validators visit them. */
  const SignupFields: seq<Field> := [FullName, EmailAddr, Password, ConfirmPassword, FarmingExperience, FarmType, Location]

  const Experiences: seq<string> := ["beginner", "intermediate", "experienced"]

  const FarmTypes: seq<string> := ["crop", "livestock", "mixed", "organic", "hydroponics", "other"]

  /**
   * What every validator agrees a good signup is: the length bounds, the
   * e-mail shape, matching passwords and the two enumerations.
   */
  predicate SignupAcceptable(d: SignupData) {
    && 2 <= |d.fullName| <= 100
    && PatternMatches(d.email)
    && 6 <= |d.password| <= 128
    && d.password == d.confirmPassword
    && d.farmingExperience in Experiences
    && d.farmType in FarmTypes
    && 3 <= |d.location| <= 255
  }

  // ---------------------------------------------------------------------------
  // Reading the form

  /**
   * The decoded form: for each signup field the browser sent, its first value.
   * Keys other than the seven signup fields play no part and are not kept.
   */
  type Form = map<Field, string>

  /** `get_form_field`: the first value, stripped; '' when the key is missing. */
  function GetFormField(form: Form, f: Field): (r: string)
    ensures IsStripped(r)
    ensures f !in form ==> r == ""
    ensures f in form ==> r == Strip(form[f])
  {
    if f in form then Strip(form[f]) else ""
  }

  /** The signup record the handlers build from the form, one `GetFormField` per field. */
  function ReadSignupForm(form: Form): (d: SignupData)
    ensures forall f: Field :: IsStripped(Get(d, f))
    ensures forall f: Field :: f !in form ==> Get(d, f) == ""
  {
    SignupData(
      GetFormField(form, FullName),
      GetFormField(form, EmailAddr),
      GetFormField(form, Password),
      GetFormField(form, ConfirmPassword),
      GetFormField(form, FarmingExperience),
      GetFormField(form, FarmType),
      GetFormField(form, Location))
  }

  // ---------------------------------------------------------------------------
  // Missing fields

  /** The fields of `fields` whose value `isMissing` rejects, in order. */
  function MissingFields(fields: seq<Field>, d: SignupData, isMissing: string -> bool): (r: seq<Field>)
    ensures forall f :: f in r <==> f in fields && isMissing(Get(d, f))
    ensures |r| <= |fields|
  {
    if fields == [] then []
    else
      var last := fields[|fields| - 1];
      assert fields == fields[..|fields| - 1] + [last];
      MissingFields(fields[..|fields| - 1], d, isMissing) + (if isMissing(Get(d, last)) then [last] else [])
  }

  /** No field is missing exactly when every field passes. */
  lemma MissingFieldsEmpty(fields: seq<Field>, d: SignupData, isMissing: string -> bool)
    ensures MissingFields(fields, d, isMissing) == [] <==> forall f :: f in fields ==> !isMissing(Get(d, f))
  {
    var r := MissingFields(fields, d, isMissing);
    if r != [] {
      assert r[0] in r;
    }
  }

  /** `MissingFields` visits the fields one at a time, as the validators' loops do. */
  lemma MissingFieldsStep(fields: seq<Field>, i: nat, d: SignupData, isMissing: string -> bool)
    requires i < |fields|
    ensures MissingFields(fields[..i + 1], d, isMissing)
            == MissingFields(fields[..i], d, isMissing) + (if isMissing(Get(d, fields[i])) then [fields[i]] else [])
  {
    assert fields[..i + 1][..i] == fields[..i];
  }

  /** The check of the two server validators: `not data.get(field)`. */
  predicate IsEmpty(s: string) { s == "" }

  /** The check of the debug validator: `not data.get(field) or not data[field].strip()`. */
  predicate IsBlank(s: string) { Strip(s) == "" }

  /** A field empty in the server validators' sense makes the signup unacceptable. */
  lemma EmptyFieldRejected(d: SignupData)
    requires MissingFields(SignupFields, d, IsEmpty) != []
    ensures !SignupAcceptable(d)
  {
    var f := MissingFields(SignupFields, d, IsEmpty)[0];
    assert f in SignupFields && Get(d, f) == "";
    if f == EmailAddr {
      assert !IsEmailShape("");
    }
  }

  // ---------------------------------------------------------------------------
  // The content checks, in the order both server validators run them

  datatype Check =
    | NameTooShort | NameTooLong
    | BadEmail
    | PasswordTooShort | PasswordTooLong
    | PasswordMismatch
    | BadExperience
    | BadFarmType
    | LocationTooShort | LocationTooLong

  function NameChecks(d: SignupData): seq<Check> {
    if |d.fullName| < 2 then [NameTooShort] else if |d.fullName| > 100 then [NameTooLong] else []
  }

  function EmailChecks(d: SignupData): seq<Check> {
    if !PatternMatches(d.email) then [BadEmail] else []
  }

  function PasswordChecks(d: SignupData): seq<Check> {
    if |d.password| < 6 then [PasswordTooShort] else if |d.password| > 128 then [PasswordTooLong] else []
  }

  function MismatchChecks(d: SignupData): seq<Check> {
    if d.password != d.confirmPassword then [PasswordMismatch] else []
  }

  function ExperienceChecks(d: SignupData): seq<Check> {
    if d.farmingExperience !in Experiences then [BadExperience] else []
  }

  function FarmTypeChecks(d: SignupData): seq<Check> {
    if d.farmType !in FarmTypes then [BadFarmType] else []
  }

  function LocationChecks(d: SignupData): seq<Check> {
    if |d.location| < 3 then [LocationTooShort] else if |d.location| > 255 then [LocationTooLong] else []
  }

  /** The checks `d` fails, in check order; the short/long pair of one field never both fail. */
  function FailedChecks(d: SignupData): (r: seq<Check>)
    ensures r == [] <==> SignupAcceptable(d)
    ensures d.password != d.confirmPassword ==> PasswordMismatch in r
    ensures |r| <= 7
  {
    NameChecks(d) + EmailChecks(d) + PasswordChecks(d) + MismatchChecks(d)
    + ExperienceChecks(d) + FarmTypeChecks(d) + LocationChecks(d)
  }

  // ---------------------------------------------------------------------------
  // fix_user_creation_server.py: validate_signup_data

  datatype Report = Report(valid: bool, message: string, errors: seq<string>)

  function DisplayName(f: Field): string {
    match f
    case FullName => "Full Name"
    case EmailAddr => "Email Address"
    case Password => "Password"
    case ConfirmPassword => "Confirm Password"
    case FarmingExperience => "Farming Experience"
    case FarmType => "Farm Type"
    case Location => "Location"
  }

  function RequiredMessage(f: Field): string { DisplayName(f) + " is required" }

  function ErrorMessage(c: Check): string {
    match c
    case NameTooShort => "Full name must be at least 2 characters long"
    case NameTooLong => "Full name is too long (max 100 characters)"
    case BadEmail => "Please enter a valid email address"
    case PasswordTooShort => "Password must be at least 6 characters long"
    case PasswordTooLong => "Password is too long (max 128 characters)"
    case PasswordMismatch => "Passwords do not match"
    case BadExperience => "Invalid farming experience. Must be one of: beginner, intermediate, experienced"
    case BadFarmType => "Invalid farm type. Must be one of: crop, livestock, mixed, organic, hydroponics, other"
    case LocationTooShort => "Location must be at least 3 characters long"
    case LocationTooLong => "Location is too long (max 255 characters)"
  }

  /** The content checks of `validate_signup_data`, run in order; each failure is recorded. */
  method ContentChecks(d: SignupData) returns (failed: seq<Check>)
    ensures failed == FailedChecks(d)
  {
    failed := [];
    if |d.fullName| < 2 {
      failed := failed + [NameTooShort];
    } else if |d.fullName| > 100 {
      failed := failed + [NameTooLong];
    }
    assert failed == NameChecks(d);
    ghost var before := failed;
    if !PatternMatches(d.email) {
      failed := failed + [BadEmail];
    }
    assert failed == before + EmailChecks(d);
    before := failed;
    var password := d.password;
    if |password| < 6 {
      failed := failed + [PasswordTooShort];
    } else if |password| > 128 {
      failed := failed + [PasswordTooLong];
    }
    assert failed == before + PasswordChecks(d);
    before := failed;
    if password != d.confirmPassword {
      failed := failed + [PasswordMismatch];
    }
    assert failed == before + MismatchChecks(d);
    before := failed;
    if d.farmingExperience !in Experiences {
      failed := failed + [BadExperience];
    }
    assert failed == before + ExperienceChecks(d);
    before := failed;
    if d.farmType !in FarmTypes {
      failed := failed + [BadFarmType];
    }
    assert failed == before + FarmTypeChecks(d);
    before := failed;
    if |d.location| < 3 {
      failed := failed + [LocationTooShort];
    } else if |d.location| > 255 {
      failed := failed + [LocationTooLong];
    }
    assert failed == before + LocationChecks(d);

  }

  /**
   * Collects every error. Empty required fields are reported one message per
   * field and stop the validation; otherwise every content check runs and the
   * message is the errors joined by "; ". The model collects which fields and
   * checks failed and renders their messages once, at the end.
   */
  method ValidateSignupData(d: SignupData) returns (rep: Report)
    ensures rep.valid <==> rep.errors == []
    ensures rep.valid <==> SignupAcceptable(d)
    ensures MissingFields(SignupFields, d, IsEmpty) != [] ==>
              rep == Report(false, "Required fields are missing", MapSeq(MissingFields(SignupFields, d, IsEmpty), RequiredMessage))
    ensures MissingFields(SignupFields, d, IsEmpty) == [] ==>
              rep.errors == MapSeq(FailedChecks(d), ErrorMessage)
              && rep.message == (if rep.valid then "Validation passed" else Join(rep.errors, "; "))
  {
    var missing: seq<Field> := [];
    for i := 0 to |SignupFields|
      invariant missing == MissingFields(SignupFields[..i], d, IsEmpty)
    {
      var f := SignupFields[i];
      MissingFieldsStep(SignupFields, i, d, IsEmpty);
      if Get(d, f) == "" {
        missing := missing + [f];
      }
    }
    assert SignupFields[..|SignupFields|] == SignupFields;
    if missing != [] {
      EmptyFieldRejected(d);
      return Report(false, "Required fields are missing", MapSeq(missing, RequiredMessage));
    }

    var failed := ContentChecks(d);
    var errors := MapSeq(failed, ErrorMessage);
    if errors != [] {
      return Report(false, Join(errors, "; "), errors);
    }
    return Report(true, "Validation passed", []);
  }

  // ---------------------------------------------------------------------------
  // enhanced_signup_handler.py: validate_signup_data

  datatype Outcome = Outcome(valid: bool, message: string)

  /** The first field of `fields` whose value is empty. */
  function FirstEmpty(fields: seq<Field>, d: SignupData): (r: Option<Field>)
    ensures r.None? <==> forall k :: 0 <= k < |fields| ==> Get(d, fields[k]) != ""
    ensures r.Some? ==> exists k :: 0 <= k < |fields| && fields[k] == r.value && Get(d, r.value) == ""
                                    && forall j :: 0 <= j < k ==> Get(d, fields[j]) != ""
  {
    if fields == [] then None
    else if Get(d, fields[0]) == "" then Some(fields[0])
    else
      var r := FirstEmpty(fields[1..], d);
      assert r.Some? ==> exists k :: 0 <= k < |fields[1..]| && fields[1..][k] == r.value
                                     && forall j :: 0 <= j < k ==> Get(d, fields[1..][j]) != "";
      assert r.Some? ==> exists k :: 0 < k < |fields| && fields[k] == r.value
                                     && forall j :: 0 <= j < k ==> Get(d, fields[j]) != "" by {
        if r.Some? {
          var k :| 0 <= k < |fields[1..]| && fields[1..][k] == r.value
                   && forall j :: 0 <= j < k ==> Get(d, fields[1..][j]) != "";
          assert forall j :: 0 <= j < k + 1 ==> Get(d, fields[j]) != "" by {
            forall j | 0 <= j < k + 1 ensures Get(d, fields[j]) != "" {
              if j > 0 { assert fields[j] == fields[1..][j - 1]; }
            }
          }
        }
      }
      r
  }

  /** `field.replace("_", " ").title()` of each form key: only the first letter stays upper-case. */
  function TitledKey(f: Field): string {
    match f
    case FullName => "Fullname"
    case EmailAddr => "Email"
    case Password => "Password"
    case ConfirmPassword => "Confirmpassword"
    case FarmingExperience => "Farmingexperience"
    case FarmType => "Farmtype"
    case Location => "Location"
  }

  function FirstErrorMessage(c: Check): string {
    match c
    case NameTooShort => "Full name must be at least 2 characters long"
    case NameTooLong => "Full name is too long (max 100 characters)"
    case BadEmail => "Please enter a valid email address"
    case PasswordTooShort => "Password must be at least 6 characters long"
    case PasswordTooLong => "Password is too long (max 128 characters)"
    case PasswordMismatch => "Passwords do not match"
    case BadExperience => "Please select a valid farming experience level"
    case BadFarmType => "Please select a valid farm type"
    case LocationTooShort => "Location must be at least 3 characters long"
    case LocationTooLong => "Location is too long (max 255 characters)"
  }

  /** The enhanced validator's chain of content checks: the first one that fails, if any. */
  function FirstFailedCheck(d: SignupData): (r: Option<Check>)
    ensures r.None? <==> SignupAcceptable(d)
    ensures r.Some? ==> FailedChecks(d) != [] && r.value == FailedChecks(d)[0]
  {
    if |d.fullName| < 2 then Some(NameTooShort)
    else if |d.fullName| > 100 then Some(NameTooLong)
    else if !PatternMatches(d.email) then Some(BadEmail)
    else if |d.password| < 6 then Some(PasswordTooShort)
    else if |d.password| > 128 then Some(PasswordTooLong)
    else if d.password != d.confirmPassword then Some(PasswordMismatch)
    else if d.farmingExperience !in Experiences then Some(BadExperience)
    else if d.farmType !in FarmTypes then Some(BadFarmType)
    else if |d.location| < 3 then Some(LocationTooShort)
    else if |d.location| > 255 then Some(LocationTooLong)
    else None
  }

  /**
   * Stops at the first failure: the first empty field in form order, else the
   * first failing content check in check order. Accepts exactly the signups
   * the collecting validator accepts.
   */
  function ValidateFirstError(d: SignupData): (r: Outcome)
    ensures r.valid <==> SignupAcceptable(d)
    ensures FirstEmpty(SignupFields, d).Some? ==>
              r == Outcome(false, TitledKey(FirstEmpty(SignupFields, d).value) + " is required")
    ensures FirstEmpty(SignupFields, d).None? && !r.valid ==>
              FailedChecks(d) != [] && r.message == FirstErrorMessage(FailedChecks(d)[0])
  {
    match FirstEmpty(SignupFields, d)
    case Some(f) =>
      EmptyFieldRejected(d);
      Outcome(false, TitledKey(f) + " is required")
    case None =>
      match FirstFailedCheck(d)
      case Some(c) => Outcome(false, FirstErrorMessage(c))
      case None => Outcome(true, "Validation passed")
  }

  /**
   * Where no field is empty, the first-error validator reports the first
   * message of the collecting validator's list, in its own wording; a short
   * password is reported ahead of a confirmation mismatch.
   */
  lemma FirstErrorIsHeadOfCollected(d: SignupData)
    requires MissingFields(SignupFields, d, IsEmpty) == []
    requires !SignupAcceptable(d)
    ensures FirstEmpty(SignupFields, d).None?
    ensures ValidateFirstError(d).message == FirstErrorMessage(FailedChecks(d)[0])
    ensures |d.password| < 6 && d.password != d.confirmPassword ==>
              PasswordTooShort in FailedChecks(d) && PasswordMismatch in FailedChecks(d)
              && FailedChecks(d)[0] != PasswordMismatch
  {
    MissingFieldsEmpty(SignupFields, d, IsEmpty);
    assert FirstEmpty(SignupFields, d).None? by {
      forall k | 0 <= k < |SignupFields| ensures Get(d, SignupFields[k]) != "" {
        assert SignupFields[k] in SignupFields;
      }
    }
    if |d.password| < 6 && d.password != d.confirmPassword {
      var head := NameChecks(d) + EmailChecks(d) + PasswordChecks(d);
      var tail := MismatchChecks(d) + ExperienceChecks(d) + FarmTypeChecks(d) + LocationChecks(d);
      assert FailedChecks(d) == head + tail;
      assert PasswordTooShort in head && PasswordMismatch !in head;
      assert head[0] == FailedChecks(d)[0];
    }
  }

  // ---------------------------------------------------------------------------
  // debug_user_creation.py: validate_user_data

  /** The debug validator's required fields: confirmPassword is not among them. */
  const DebugFields: seq<Field> := [FullName, EmailAddr, Password, FarmingExperience, FarmType, Location]

  /** What the debug validator accepts: no upper bounds, no name or location length, no confirmation. */
  predicate DebugAcceptable(d: SignupData) {
    && (forall f :: f in DebugFields ==> !IsBlank(Get(d, f)))
    && PatternMatches(d.email)
    && |d.password| >= 6
    && d.farmingExperience in Experiences
    && d.farmType in FarmTypes
  }

  function DebugRequiredMessage(f: Field): string { "Field '" + Key(f) + "' is required" }

  datatype DebugCheck = InvalidEmail | ShortPassword | InvalidExperience | InvalidFarmType

  function DebugMessage(c: DebugCheck): string {
    match c
    case InvalidEmail => "Invalid email format"
    case ShortPassword => "Password must be at least 6 characters long"
    case InvalidExperience => "Invalid farming experience. Must be one of: ['beginner', 'intermediate', 'experienced']"
    case InvalidFarmType => "Invalid farm type. Must be one of: ['crop', 'livestock', 'mixed', 'organic', 'hydroponics', 'other']"
  }

  function DebugEmailChecks(d: SignupData): seq<DebugCheck> {
    if d.email != "" && !PatternMatches(d.email) then [InvalidEmail] else []
  }

  function DebugPasswordChecks(d: SignupData): seq<DebugCheck> {
    if d.password != "" && |d.password| < 6 then [ShortPassword] else []
  }

  function DebugExperienceChecks(d: SignupData): seq<DebugCheck> {
    if d.farmingExperience != "" && d.farmingExperience !in Experiences then [InvalidExperience] else []
  }

  function DebugFarmTypeChecks(d: SignupData): seq<DebugCheck> {
    if d.farmType != "" && d.farmType !in FarmTypes then [InvalidFarmType] else []
  }

  /** The debug content checks `d` fails; each applies only when its field is non-empty. */
  function DebugFailedChecks(d: SignupData): seq<DebugCheck> {
    DebugEmailChecks(d) + DebugPasswordChecks(d) + DebugExperienceChecks(d) + DebugFarmTypeChecks(d)
  }

  /** The content checks of `validate_user_data`, run in order; each failure is recorded. */
  method DebugContentChecks(d: SignupData) returns (failed: seq<DebugCheck>)
    ensures failed == DebugFailedChecks(d)
  {
    failed := [];
    if d.email != "" && !PatternMatches(d.email) {
      failed := failed + [InvalidEmail];
    }
    ghost var before := failed;
    if d.password != "" && |d.password| < 6 {
      failed := failed + [ShortPassword];
    }
    assert failed == before + DebugPasswordChecks(d);
    before := failed;
    if d.farmingExperience != "" && d.farmingExperience !in Experiences {
      failed := failed + [InvalidExperience];
    }
    assert failed == before + DebugExperienceChecks(d);
    before := failed;
    if d.farmType != "" && d.farmType !in FarmTypes {
      failed := failed + [InvalidFarmType];
    }
    assert failed == before + DebugFarmTypeChecks(d);
  }

  /**
   * Collects all errors without stopping: blank required fields first, then
   * the checks on the fields that are present. Valid exactly when nothing was
   * collected.
   */
  method ValidateUserData(d: SignupData) returns (valid: bool, errors: seq<string>)
    ensures valid <==> errors == []
    ensures valid <==> DebugAcceptable(d)
    ensures errors == MapSeq(MissingFields(DebugFields, d, IsBlank), DebugRequiredMessage)
                      + MapSeq(DebugFailedChecks(d), DebugMessage)
  {
    var missing: seq<Field> := [];
    for i := 0 to |DebugFields|
      invariant missing == MissingFields(DebugFields[..i], d, IsBlank)
    {
      var f := DebugFields[i];
      MissingFieldsStep(DebugFields, i, d, IsBlank);
      var value := Get(d, f);
      if value == "" || Strip(value) == "" {
        missing := missing + [f];
      }
    }
    assert DebugFields[..|DebugFields|] == DebugFields;
    var failed := DebugContentChecks(d);
    errors := MapSeq(missing, DebugRequiredMessage) + MapSeq(failed, DebugMessage);
    valid := errors == [];
    DebugAcceptableIffNoErrors(d);
  }

  lemma DebugAcceptableIffNoErrors(d: SignupData)
    ensures DebugAcceptable(d) <==>
              MissingFields(DebugFields, d, IsBlank) == [] && DebugFailedChecks(d) == []
  {
    if DebugAcceptable(d) {
      DebugAcceptableHasNoErrors(d);
    }
    if MissingFields(DebugFields, d, IsBlank) == [] && DebugFailedChecks(d) == [] {
      NoErrorsIsDebugAcceptable(d);
    }
  }

  lemma DebugAcceptableHasNoErrors(d: SignupData)
    requires DebugAcceptable(d)
    ensures MissingFields(DebugFields, d, IsBlank) == [] && DebugFailedChecks(d) == []
  {
    MissingFieldsEmpty(DebugFields, d, IsBlank);
  }

  lemma NoErrorsIsDebugAcceptable(d: SignupData)
    requires MissingFields(DebugFields, d, IsBlank) == [] && DebugFailedChecks(d) == []
    ensures DebugAcceptable(d)
  {
    forall f | f in DebugFields ensures !IsBlank(Get(d, f)) && Get(d, f) != "" {
      assert f !in MissingFields(DebugFields, d, IsBlank);
    }
    assert Get(d, EmailAddr) != "" && Get(d, Password) != "";
    assert Get(d, FarmingExperience) != "" && Get(d, FarmType) != "";
  }

  /**
   * On the records the servers build from a form (every field stripped), the
   * strict validators accept only what the debug validator accepts.
   */
  lemma StrictImpliesDebugOnForms(form: Form)
    requires SignupAcceptable(ReadSignupForm(form))
    ensures DebugAcceptable(ReadSignupForm(form))
  {
    var d := ReadSignupForm(form);
    forall f | f in DebugFields ensures !IsBlank(Get(d, f)) {
      StripStripped(Get(d, f));
      if Get(d, f) == "" {
        EmptyFieldRejected(d);
      }
    }
  }

  /** The converse fails: the debug validator accepts a one-letter name, no confirmation and a short location. */
  lemma DebugIsLooser()
    ensures var d := SignupData("J", "jane@x.com", "secret1", "", "beginner", "crop", "IA");
            DebugAcceptable(d) && !SignupAcceptable(d)
  {
    var d := SignupData("J", "jane@x.com", "secret1", "", "beginner", "crop", "IA");
    var e := d.email;
    assert e[..4] == "jane" && e[5..6] == "x" && e[7..] == "com";
    assert SplitsAt(e, 4, 6);
    forall f | f in DebugFields ensures !IsBlank(Get(d, f)) {
      StripStripped(Get(d, f));
    }
  }

  /** Without stripping neither validator is below the other: a blank name passes the strict one only. */
  lemma BlankNameOnlyStrict()
    ensures var d := SignupData("  ", "jane@x.com", "secret1", "secret1", "beginner", "crop", "Iowa");
            SignupAcceptable(d) && !DebugAcceptable(d)
  {
    var d := SignupData("  ", "jane@x.com", "secret1", "secret1", "beginner", "crop", "Iowa");
    var e := d.email;
    assert e[..4] == "jane" && e[5..6] == "x" && e[7..] == "com";
    assert SplitsAt(e, 4, 6);
    StripEmpty("  ");
    assert FullName in DebugFields;
  }
}
