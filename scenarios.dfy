/**
 * The scenarios of the signup integration client
 * (scripts/test_signup_integration.py), stated as facts about the model: what
 * the first-error validator of the signup handler answers and what the
 * collecting validator of the fixed server finds for each record the client
 * posts. The client stamps its e-mail addresses with the current time; the
 * scenarios take the address as a parameter, and `StampedIsAddress` shows
 * that a stamped address has the accepted shape.
 */
module SignupScenarios {
  import opened Wrappers
  import opened Email
  import opened Signup
  import opened Store
  import opened Text
  import Mentorship

  /** `test.farmer.<seconds>@example.com` for one value of the stamp. */
  const Stamped := "test.farmer.1700000000@example.com"

  lemma StampedIsAddress()
    ensures IsEmailShape(Stamped)
  {
    var s := Stamped;
    assert s[..22] == "test.farmer.1700000000";
    assert s[23..30] == "example";
    assert s[31..] == "com";
    assert SplitsAt(s, 22, 30);
  }

  /** Test 1: the client's valid user, with the e-mail address it generated. */
  function ValidUser(email: string): SignupData {
    SignupData("Test Farmer", email, "securepassword123", "securepassword123", "beginner", "crop", "Test Valley, CA")
  }

  /** The form a client posts for `d`: all seven keys, each with its field's value. */
  function FormOf(d: SignupData): Form {
    map[FullName := d.fullName, EmailAddr := d.email, Password := d.password,
        ConfirmPassword := d.confirmPassword, FarmingExperience := d.farmingExperience,
        FarmType := d.farmType, Location := d.location]
  }

  /** A form whose values have no surrounding white space reads back as the record it was made from. */
  lemma ReadFormOf(d: SignupData)
    requires IsStripped(d.fullName) && IsStripped(d.email) && IsStripped(d.password) && IsStripped(d.confirmPassword)
    requires IsStripped(d.farmingExperience) && IsStripped(d.farmType) && IsStripped(d.location)
    ensures ReadSignupForm(FormOf(d)) == d
  {
    StripStripped(d.fullName);
    StripStripped(d.email);
    StripStripped(d.password);
    StripStripped(d.confirmPassword);
    StripStripped(d.farmingExperience);
    StripStripped(d.farmType);
    StripStripped(d.location);
  }

  /** Test 1 as posted: reading the client's form gives back the valid user. */
  lemma ReadValidForm(email: string)
    requires IsStripped(email)
    ensures ReadSignupForm(FormOf(ValidUser(email))) == ValidUser(email)
  {
    ReadFormOf(ValidUser(email));
  }

  /** No field of the valid user or of its variants below is empty. */
  lemma NoneEmpty(d: SignupData)
    requires d.fullName == "Test Farmer" && d.location == "Test Valley, CA"
    requires d.email != "" && d.password != "" && d.confirmPassword != "" && d.farmingExperience != "" && d.farmType != ""
    ensures FirstEmpty(SignupFields, d).None?
  {
    assert forall k :: 0 <= k < |SignupFields| ==> Get(d, SignupFields[k]) != "";
  }

  lemma KnownChoices(d: SignupData)
    requires d.farmingExperience == "beginner" && d.farmType == "crop"
    ensures d.farmingExperience in Experiences && d.farmType in FarmTypes
  {
    assert d.farmingExperience == Experiences[0] && d.farmType == FarmTypes[0];
  }

  /** Test 1: the valid user passes both validators. */
  lemma ValidSignupAccepted(email: string)
    requires IsEmailShape(email)
    ensures SignupAcceptable(ValidUser(email))
    ensures FailedChecks(ValidUser(email)) == []
    ensures ValidateFirstError(ValidUser(email)) == Outcome(true, "Validation passed")
  {
    KnownChoices(ValidUser(email));
    NoneEmpty(ValidUser(email));
  }

  /**
   * Tests 1b and 2: once the valid user is stored, signing in with the same
   * e-mail and password hash finds that user, and the same e-mail submitted
   * again is taken, so the second signup is refused.
   */
  lemma SignupThenSigninThenDuplicate(t: Tables, email: string, passwordHash: string, now: int)
    requires TablesValid(t) && !EmailTaken(t.users, email)
    ensures var t' := AddUser(t, "Test Farmer", email, passwordHash, "beginner", "crop", "Test Valley, CA", now);
            && FindByCredentials(t'.users, email, passwordHash) ==
                 Some(NewUser(t.nextUserId, "Test Farmer", email, passwordHash, "beginner", "crop", "Test Valley, CA", now))
            && EmailTaken(t'.users, email)
  {
    AddUserThenFind(t, "Test Farmer", email, passwordHash, "beginner", "crop", "Test Valley, CA", now);
    var t' := AddUser(t, "Test Farmer", email, passwordHash, "beginner", "crop", "Test Valley, CA", now);
    assert t'.users[|t.users|].email == email;
  }

  /** An address without '@' is refused by its e-mail check alone. */
  lemma NoAtSignRejected(email: string)
    requires email != "" && '@' !in email
    ensures var d := ValidUser(email);
            && FailedChecks(d) == [BadEmail]
            && ValidateFirstError(d) == Outcome(false, "Please enter a valid email address")
  {
    var d := ValidUser(email);
    assert !PatternMatches(d.email);
    KnownChoices(d);
    NoneEmpty(d);
  }

  /** Test 3: the client's malformed address. */
  lemma InvalidEmailRejected()
    ensures var d := ValidUser("invalid-email-format");
            && FailedChecks(d) == [BadEmail]
            && ValidateFirstError(d) == Outcome(false, "Please enter a valid email address")
  {
    var e := "invalid-email-format";
    assert forall i :: 0 <= i < |e| ==> e[i] != '@';
    NoAtSignRejected(e);
  }

  /** Test 4: a different confirmation, refused as a mismatch and for nothing else. */
  lemma MismatchRejected(email: string)
    requires IsEmailShape(email)
    ensures var d := ValidUser(email).(confirmPassword := "differentpassword");
            && FailedChecks(d) == [PasswordMismatch]
            && ValidateFirstError(d) == Outcome(false, "Passwords do not match")
  {
    var d := ValidUser(email).(confirmPassword := "differentpassword");
    KnownChoices(d);
    NoneEmpty(d);
  }

  /** Test 6: a three-character password, refused for its length only. */
  lemma ShortPasswordRejected(email: string)
    requires IsEmailShape(email)
    ensures var d := ValidUser(email).(password := "123", confirmPassword := "123");
            && FailedChecks(d) == [PasswordTooShort]
            && ValidateFirstError(d) == Outcome(false, "Password must be at least 6 characters long")
  {
    var d := ValidUser(email).(password := "123", confirmPassword := "123");
    KnownChoices(d);
    NoneEmpty(d);
  }

  /** Test 7: an experience level outside the three allowed ones. */
  lemma InvalidExperienceRejected(email: string)
    requires IsEmailShape(email)
    ensures var d := ValidUser(email).(farmingExperience := "invalid_experience");
            && FailedChecks(d) == [BadExperience]
            && ValidateFirstError(d) == Outcome(false, "Please select a valid farming experience level")
  {
    var d := ValidUser(email).(farmingExperience := "invalid_experience");
    assert d.farmType in FarmTypes by {
      assert d.farmType == FarmTypes[0];
    }
    assert d.farmingExperience !in Experiences by {
      assert Experiences == ["beginner", "intermediate", "experienced"];
      assert |d.farmingExperience| != |Experiences[0]| && |d.farmingExperience| != |Experiences[1]|
             && |d.farmingExperience| != |Experiences[2]|;
    }
    NoneEmpty(d);
  }

  /** Test 5: only name, e-mail and password sent. */
  function IncompleteUser(email: string): SignupData {
    SignupData("Incomplete User", email, "password123", "", "", "", "")
  }

  /** The incomplete form reads as that record: the absent keys read as ''. */
  lemma ReadIncompleteForm(email: string)
    requires IsStripped(email)
    ensures ReadSignupForm(map[FullName := "Incomplete User", EmailAddr := email, Password := "password123"])
            == IncompleteUser(email)
  {
    StripStripped(email);
    StripStripped("Incomplete User");
    StripStripped("password123");
  }

  /** Test 5, fixed server: exactly the four fields the client left out are reported missing. */
  lemma MissingFieldsListed(email: string)
    requires email != ""
    ensures !SignupAcceptable(IncompleteUser(email))
    ensures forall f :: f in MissingFields(SignupFields, IncompleteUser(email), IsEmpty) <==>
                          f in {ConfirmPassword, FarmingExperience, FarmType, Location}
  {
    var d := IncompleteUser(email);
    forall f ensures f in SignupFields {
      match f
      case FullName => assert SignupFields[0] == f;
      case EmailAddr => assert SignupFields[1] == f;
      case Password => assert SignupFields[2] == f;
      case ConfirmPassword => assert SignupFields[3] == f;
      case FarmingExperience => assert SignupFields[4] == f;
      case FarmType => assert SignupFields[5] == f;
      case Location => assert SignupFields[6] == f;
    }
  }

  /** Test 5, signup handler: the first missing key is named. */
  lemma FirstMissingNamed(email: string)
    requires email != ""
    ensures ValidateFirstError(IncompleteUser(email)) == Outcome(false, "Confirmpassword is required")
  {
    var d, fs := IncompleteUser(email), SignupFields;
    var r := FirstEmpty(fs, d);
    assert Get(d, fs[0]) != "" && Get(d, fs[1]) != "" && Get(d, fs[2]) != "" && Get(d, fs[3]) == "";
    var k :| 0 <= k < |fs| && fs[k] == r.value && Get(d, r.value) == "" && forall j :: 0 <= j < k ==> Get(d, fs[j]) != "";
    assert k == 3;
  }

  /**
   * The mentorship example: mentee 2 asks mentor 1; the first acceptance
   * updates one pending row, the second finds none.
   */
  lemma RequestThenAcceptTwice(t: Tables, now: int)
    requires TablesValid(t) && !HasMentorship(t.mentorships, 1, 2)
    ensures var t1 := AddMentorship(t, 1, 2, now);
            var ms2 := AcceptRows(t1.mentorships, 1, 2);
            && PendingCount(t1.mentorships, 1, 2) == 1
            && PendingCount(ms2, 1, 2) == 0
            && AcceptRows(ms2, 1, 2) == ms2
  {
    Mentorship.AddMentorshipValid(t, 1, 2, now);
    var t1 := AddMentorship(t, 1, 2, now);
    Mentorship.AcceptRowsEffect(t1, 1, 2);
    Mentorship.AcceptNothingPending(AcceptRows(t1.mentorships, 1, 2), 1, 2);
  }
}
