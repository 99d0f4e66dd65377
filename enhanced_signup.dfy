/**
 * The signup and sign-in flow of the enhanced handler
 * (scripts/enhanced_signup_handler.py): read and strip the form, validate
 * with the first-error-wins validator (`Signup.ValidateFirstError`), register,
 * and log a `signup` or `login` activity only after a success. Activity
 * logging is best effort: a failure of the logging statement is a parameter
 * and never reaches the caller.
 */
module EnhancedSignup {
  import opened Wrappers
  import opened Signup
  import opened Store

  /** What `create_user_in_database` answers on a taken e-mail (the pre-check and the UNIQUE constraint alike). */
  datatype CreateError = EmailAlreadyRegistered

  function CreateErrorMessage(e: CreateError): string {
    "Email address is already registered"
  }

  datatype AuthError = InvalidCredentials

  function AuthErrorMessage(e: AuthError): string {
    "Invalid email or password"
  }

  /** The JSON body `handle_signup` sends back. */
  datatype SignupResponse = SignupResponse(success: bool, message: string, user: Option<PublicUser>)

  /** The address logged with an activity: the `X-Forwarded-For` header when present, else the peer address. */
  function ClientIp(forwardedFor: Option<string>, clientAddress: string): string {
    match forwardedFor
    case Some(ip) => ip
    case None => clientAddress
  }

  class FarmConnectSignupHandler {
    const db: Database
    /** `hash_password`: SHA-256 hex digest, a deterministic function of the password. */
    const sha256: string -> string

    constructor (db: Database, sha256: string -> string)
      ensures this.db == db && this.sha256 == sha256
    {
      this.db := db;
      this.sha256 := sha256;
    }

    /** A taken e-mail inserts nothing; otherwise one row is added and returned without its digest. */
    method CreateUserInDatabase(d: SignupData, now: int) returns (r: Result<PublicUser, CreateError>)
      requires db.Valid()
      modifies db
      ensures db.Valid()
      ensures EmailTaken(old(db.users), d.email) ==> r == Err(EmailAlreadyRegistered) && db.State() == old(db.State())
      ensures !EmailTaken(old(db.users), d.email) ==>
                && r == Ok(PublicUser(old(db.nextUserId), d.fullName, d.email, d.farmingExperience, d.farmType,
                                      d.location, false, now))
                && db.State() == AddUser(old(db.State()), d.fullName, d.email, sha256(d.password),
                                         d.farmingExperience, d.farmType, d.location, now)
    {
      if EmailTaken(db.users, d.email) {
        return Err(EmailAlreadyRegistered);
      }
      var id := db.InsertUser(d.fullName, d.email, sha256(d.password), d.farmingExperience, d.farmType, d.location, now);
      r := Ok(PublicUser(id.value, d.fullName, d.email, d.farmingExperience, d.farmType, d.location, false, now));
    }

    /**
     * Sign-in: on a match the matched user's `last_login` becomes `now` and
     * nothing else changes; without a match no row changes.
     */
    method AuthenticateUser(email: string, password: string, now: int) returns (r: Result<PublicUser, AuthError>)
      requires db.Valid()
      modifies db
      ensures db.Valid()
      ensures FindByCredentials(old(db.users), email, sha256(password)).None? ==>
                r == Err(InvalidCredentials) && db.State() == old(db.State())
      ensures FindByCredentials(old(db.users), email, sha256(password)).Some? ==>
                var u := FindByCredentials(old(db.users), email, sha256(password)).value;
                && r == Ok(Public(u))
                && db.State() == old(db.State()).(users := SetLastLogin(old(db.users), u.id, now))
    {
      var found := FindByCredentials(db.users, email, sha256(password));
      match found {
        case None =>
          r := Err(InvalidCredentials);
        case Some(u) =>
          SetLastLoginValid(db.State(), u.id, now);
          db.UpdateLastLogin(u.id, now);
          r := Ok(Public(u));
      }
    }

    /**
     * `log_user_activity`: appends one activity row, unless the statement
     * fails (`fails`), in which case nothing changes and nothing is reported.
     */
    method LogUserActivity(userId: nat, kind: ActivityKind, details: Option<SignupDetails>,
                           forwardedFor: Option<string>, clientAddress: string, now: int, fails: bool)
      requires db.Valid()
      modifies db
      ensures db.Valid()
      ensures fails ==> db.State() == old(db.State())
      ensures !fails ==> db.State() == AddActivity(old(db.State()), userId, kind, details,
                                                   ClientIp(forwardedFor, clientAddress), now)
    {
      if !fails {
        var ipAddress := ClientIp(forwardedFor, clientAddress);
        AddActivityValid(db.State(), userId, kind, details, ipAddress, now);
        db.InsertActivity(userId, kind, details, ipAddress, now);
      }
    }

    /**
     * `handle_signup`: a form that fails validation is answered with the
     * validator's message and changes nothing; a taken e-mail likewise;
     * otherwise the account is created and a `signup` activity with the
     * e-mail, experience and farm type is logged (best effort).
     */
    method HandleSignup(form: Form, now: int, forwardedFor: Option<string>, clientAddress: string, logFails: bool) returns (resp: SignupResponse)
      requires db.Valid()
      modifies db
      ensures db.Valid()
      ensures var d := ReadSignupForm(form);
              resp.success <==> SignupAcceptable(d) && !EmailTaken(old(db.users), d.email)
      ensures !resp.success ==> db.State() == old(db.State())
      ensures var d := ReadSignupForm(form);
              !SignupAcceptable(d) ==> resp == SignupResponse(false, ValidateFirstError(d).message, None)
      ensures var d := ReadSignupForm(form);
              SignupAcceptable(d) && EmailTaken(old(db.users), d.email) ==>
                resp == SignupResponse(false, "Email address is already registered", None)
      ensures var d := ReadSignupForm(form);
              var id := old(db.nextUserId);
              var created := AddUser(old(db.State()), d.fullName, d.email, sha256(d.password),
                                     d.farmingExperience, d.farmType, d.location, now);
              resp.success ==>
                && resp == SignupResponse(true, "Account created successfully!",
                                          Some(PublicUser(id, d.fullName, d.email, d.farmingExperience, d.farmType,
                                                          d.location, false, now)))
                && db.State() == if logFails then created
                                 else AddActivity(created, id, SignupActivity,
                                                  Some(SignupDetails(d.email, d.farmingExperience, d.farmType)),
                                                  ClientIp(forwardedFor, clientAddress), now)
    {
      var d := ReadSignupForm(form);
      var verdict := ValidateFirstError(d);
      if !verdict.valid {
        return SignupResponse(false, verdict.message, None);
      }
      var created := CreateUserInDatabase(d, now);
      match created {
        case Err(e) =>
          resp := SignupResponse(false, CreateErrorMessage(e), None);
        case Ok(user) =>
          LogUserActivity(user.id, SignupActivity, Some(SignupDetails(d.email, d.farmingExperience, d.farmType)),
                          forwardedFor, clientAddress, now, logFails);
          resp := SignupResponse(true, "Account created successfully!", Some(user));
      }
    }

    /**
     * `handle_signin`: the stripped e-mail and password are checked; a
     * `login` activity is logged (best effort) only when they match.
     */
    method HandleSignin(form: Form, now: int, forwardedFor: Option<string>, clientAddress: string, logFails: bool) returns (r: Result<PublicUser, AuthError>)
      requires db.Valid()
      modifies db
      ensures db.Valid()
      ensures var found := FindByCredentials(old(db.users), GetFormField(form, EmailAddr),
                                             sha256(GetFormField(form, Password)));
              && (found.None? ==> r == Err(InvalidCredentials) && db.State() == old(db.State()))
              && (found.Some? ==>
                    var signedIn := old(db.State()).(users := SetLastLogin(old(db.users), found.value.id, now));
                    && r == Ok(Public(found.value))
                    && db.State() == if logFails then signedIn
                                     else AddActivity(signedIn, found.value.id, LoginActivity, None,
                                                      ClientIp(forwardedFor, clientAddress), now))
    {
      var email := GetFormField(form, EmailAddr);
      var password := GetFormField(form, Password);
      r := AuthenticateUser(email, password, now);
      if r.Ok? {
        LogUserActivity(r.value.id, LoginActivity, None, forwardedFor, clientAddress, now, logFails);
      }
    }
  }

  /** A sign-in changes exactly one row, the matched one, and only its `last_login`. */
  lemma SignInTouchesOnlyMatchedUser(t: Tables, email: string, passwordHash: string, now: int)
    requires TablesValid(t)
    requires FindByCredentials(t.users, email, passwordHash).Some?
    ensures var u := FindByCredentials(t.users, email, passwordHash).value;
            var users' := SetLastLogin(t.users, u.id, now);
            && |users'| == |t.users|
            && (forall i :: 0 <= i < |t.users| && t.users[i] != u ==> users'[i] == t.users[i])
            && (forall i :: 0 <= i < |t.users| && t.users[i] == u ==> users'[i] == u.(lastLogin := Some(now)))
            && (exists i :: 0 <= i < |t.users| && t.users[i] == u)
  {
    var u := FindByCredentials(t.users, email, passwordHash).value;
    var k :| 0 <= k < |t.users| && t.users[k] == u;
    forall i | 0 <= i < |t.users| && t.users[i] != u
      ensures t.users[i].id != u.id
    {
      if i < k {
        assert t.users[i].id < t.users[k].id;
      } else if i > k {
        assert t.users[k].id < t.users[i].id;
      }
    }
  }
}
