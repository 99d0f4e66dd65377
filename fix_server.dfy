/**
 * The account operations of the fixed signup server
 * (scripts/fix_user_creation_server.py): registration with an e-mail
 * pre-check and sign-in by e-mail and SHA-256 password digest, both on
 * `farmconnect.db`. Its validator is `Signup.ValidateSignupData`.
 */
module FixServer {
  import opened Wrappers
  import opened Signup
  import opened Store

  /**
   * The error code registration reports when the e-mail is taken. The
   * INTEGRITY_ERROR and DATABASE_ERROR codes answer driver failures no
   * input of this model can cause.
   */
  datatype CreateError = EmailExists

  function CreateErrorMessage(e: CreateError): string {
    "Email address is already registered"
  }

  /** Both failed sign-ins, unknown e-mail and wrong password, are this one answer. */
  datatype AuthError = InvalidCredentials

  function AuthErrorMessage(e: AuthError): string {
    "Invalid email or password"
  }

  class FixedFarmConnectHandler {
    const db: Database
    /** `hashlib.sha256(...).hexdigest()`, a deterministic function of the password. */
    const sha256: string -> string

    constructor (db: Database, sha256: string -> string)
      ensures this.db == db && this.sha256 == sha256
    {
      this.db := db;
      this.sha256 := sha256;
    }

    /**
     * Registration: an e-mail already in `users` is refused and nothing is
     * written; otherwise exactly one row with the submitted fields and the
     * digest of the password is added, and the user is returned without the
     * digest and with `is_mentor` false.
     */
    method CreateUserInDatabase(d: SignupData, now: int) returns (r: Result<PublicUser, CreateError>)
      requires db.Valid()
      modifies db
      ensures db.Valid()
      ensures EmailTaken(old(db.users), d.email) ==> r == Err(EmailExists) && db.State() == old(db.State())
      ensures !EmailTaken(old(db.users), d.email) ==>
                && r == Ok(PublicUser(old(db.nextUserId), d.fullName, d.email, d.farmingExperience, d.farmType,
                                      d.location, false, now))
                && db.State() == AddUser(old(db.State()), d.fullName, d.email, sha256(d.password),
                                         d.farmingExperience, d.farmType, d.location, now)
    {
      if EmailTaken(db.users, d.email) {
        return Err(EmailExists);
      }
      var passwordHash := sha256(d.password);
      var id := db.InsertUser(d.fullName, d.email, passwordHash, d.farmingExperience, d.farmType, d.location, now);
      r := Ok(PublicUser(id.value, d.fullName, d.email, d.farmingExperience, d.farmType, d.location, false, now));
    }

    /** Sign-in: succeeds exactly when some row has this e-mail and the digest of this password. */
    function AuthenticateUser(email: string, password: string): (r: Result<PublicUser, AuthError>)
      reads db
      ensures r.Ok? <==> exists i :: 0 <= i < |db.users| && db.users[i].email == email
                                                      && db.users[i].passwordHash == sha256(password)
      ensures r.Ok? ==> exists i :: 0 <= i < |db.users| && db.users[i].email == email
                                                    && r.value == Public(db.users[i])
    {
      match FindByCredentials(db.users, email, sha256(password))
      case None => Err(InvalidCredentials)
      case Some(u) => Ok(Public(u))
    }
  }

  /**
   * Registration then sign-in with the same e-mail and password returns the
   * account just created.
   */
  lemma RegisterThenSignIn(t: Tables, d: SignupData, sha256: string -> string, now: int)
    requires TablesValid(t) && !EmailTaken(t.users, d.email)
    ensures var t' := AddUser(t, d.fullName, d.email, sha256(d.password), d.farmingExperience, d.farmType, d.location, now);
            FindByCredentials(t'.users, d.email, sha256(d.password))
              == Some(NewUser(t.nextUserId, d.fullName, d.email, sha256(d.password), d.farmingExperience,
                              d.farmType, d.location, now))
  {
    AddUserThenFind(t, d.fullName, d.email, sha256(d.password), d.farmingExperience, d.farmType, d.location, now);
  }
}
