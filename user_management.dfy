/**
 * `UserManager` (scripts/user_management.py): registration that relies on
 * the UNIQUE e-mail constraint instead of a pre-check, sign-in by e-mail
 * and SHA-256 digest, and profile lookup by id.
 *
 * As written, `create_user` connects to a database file literally named
 * `self.db_path` instead of the configured one; `CreateUserAsWritten` models
 * that, `UserManager.CreateUser` the evident intent, which the rest of the
 * model uses.
 */
module UserManagement {
  import opened Wrappers
  import opened Store

  datatype CreateUserError =
    | EmailAlreadyExists   // the UNIQUE constraint refused the row
    | CreateFailed         // any other database error, e.g. a missing `users` table

  function CreateUserErrorMessage(e: CreateUserError, detail: string): string {
    match e
    case EmailAlreadyExists => "Email already exists!"
    case CreateFailed => "Error creating account: " + detail
  }

  /** The columns sign-in returns: a public user without `created_at`. */
  datatype Account = Account(
    id: nat,
    fullName: string,
    email: string,
    farmingExperience: string,
    farmType: string,
    location: string,
    isMentor: bool)

  function AccountOf(u: UserRow): Account {
    Account(u.id, u.fullName, u.email, u.farmingExperience, u.farmType, u.location, u.isMentor)
  }

  datatype LoginError = InvalidCredentials

  function LoginErrorMessage(e: LoginError): string {
    "Invalid email or password!"
  }

  datatype ProfileError = UserNotFound

  function ProfileErrorMessage(e: ProfileError): string {
    "User not found!"
  }

  class UserManager {
    const db: Database
    /** `hash_password`: SHA-256 hex digest. Being a function, it gives one digest per password. */
    const sha256: string -> string

    constructor (db: Database, sha256: string -> string)
      ensures this.db == db && this.sha256 == sha256
    {
      this.db := db;
      this.sha256 := sha256;
    }

    /**
     * `create_user` on the configured database: the INSERT either violates
     * the UNIQUE e-mail constraint, which answers 'Email already exists!'
     * and leaves every table as it was, or adds the row and returns its id.
     */
    method CreateUser(fullName: string, email: string, password: string, farmingExperience: string,
                      farmType: string, location: string, now: int)
      returns (r: Result<nat, CreateUserError>)
      requires db.Valid()
      modifies db
      ensures db.Valid()
      ensures r.Err? <==> EmailTaken(old(db.users), email)
      ensures r.Err? ==> r.error == EmailAlreadyExists && db.State() == old(db.State())
      ensures r.Ok? ==>
                && r.value == old(db.nextUserId)
                && db.State() == AddUser(old(db.State()), fullName, email, sha256(password),
                                         farmingExperience, farmType, location, now)
    {
      var id := db.InsertUser(fullName, email, sha256(password), farmingExperience, farmType, location, now);
      match id {
        case None => r := Err(EmailAlreadyExists);
        case Some(n) => r := Ok(n);
      }
    }

    /**
     * `authenticate_user`: reads only. Succeeds exactly when a row has this
     * e-mail and the digest of this password; one error for every other case.
     */
    function AuthenticateUser(email: string, password: string): (r: Result<Account, LoginError>)
      reads db
      ensures r.Ok? <==> exists i :: 0 <= i < |db.users| && db.users[i].email == email
                                                      && db.users[i].passwordHash == sha256(password)
      ensures r.Ok? ==> exists i :: 0 <= i < |db.users| && db.users[i].email == email
                                                    && r.value == AccountOf(db.users[i])
    {
      match FindByCredentials(db.users, email, sha256(password))
      case None => Err(InvalidCredentials)
      case Some(u) => Ok(AccountOf(u))
    }

    /** `get_user_profile`: reads only. The row with this id, or 'User not found!'. */
    function GetUserProfile(userId: nat): (r: Result<PublicUser, ProfileError>)
      reads db
      ensures r.Ok? <==> exists i :: 0 <= i < |db.users| && db.users[i].id == userId
      ensures r.Ok? ==> exists i :: 0 <= i < |db.users| && db.users[i].id == userId
                                                    && r.value == Public(db.users[i])
    {
      match UserById(db.users, userId)
      case None => Err(UserNotFound)
      case Some(u) => Ok(Public(u))
    }

    /**
     * The example run at the bottom of the file: create an account, then
     * sign in with the same e-mail and password. On a fresh e-mail the
     * sign-in returns the account just created, and a profile lookup by the
     * new id returns it as well.
     */
    method CreateThenAuthenticate(fullName: string, email: string, password: string, farmingExperience: string,
                                  farmType: string, location: string, now: int)
      returns (created: Result<nat, CreateUserError>, auth: Result<Account, LoginError>)
      requires db.Valid()
      requires !EmailTaken(db.users, email)
      modifies db
      ensures db.Valid()
      ensures created == Ok(old(db.nextUserId))
      ensures auth == Ok(Account(created.value, fullName, email, farmingExperience, farmType, location, false))
      ensures GetUserProfile(created.value)
              == Ok(PublicUser(created.value, fullName, email, farmingExperience, farmType, location, false, now))
    {
      var before := db.State();
      created := CreateUser(fullName, email, password, farmingExperience, farmType, location, now);
      AddUserThenFind(before, fullName, email, sha256(password), farmingExperience, farmType, location, now);
      UserByIdAppend(before.users,
                     NewUser(before.nextUserId, fullName, email, sha256(password), farmingExperience, farmType, location, now));
      auth := AuthenticateUser(email, password);
    }
  }

  // ---------------------------------------------------------------------------
  // `create_user` as written

  /**
   * The database file named `self.db_path` that `create_user` opens. A fresh
   * file has no tables at all.
   */
  datatype StrayFile = NoUsersTable | WithTables(t: Tables)

  /**
   * `create_user` as written: the INSERT goes to the stray file. Without a
   * `users` table it fails ('Error creating account: no such table: users');
   * with one, the row lands there. The configured database is never written.
   */
  function CreateUserAsWritten(stray: StrayFile, fullName: string, email: string, passwordHash: string,
                               farmingExperience: string, farmType: string, location: string, now: int)
    : (r: (Result<nat, CreateUserError>, StrayFile))
    ensures stray.NoUsersTable? ==> r == (Err(CreateFailed), stray)
    ensures stray.WithTables? && !EmailTaken(stray.t.users, email) ==>
              r.0 == Ok(stray.t.nextUserId) && r.1.WithTables? && EmailTaken(r.1.t.users, email)
  {
    match stray
    case NoUsersTable => (Err(CreateFailed), stray)
    case WithTables(t) =>
      if EmailTaken(t.users, email) then (Err(EmailAlreadyExists), stray)
      else
        var t' := AddUser(t, fullName, email, passwordHash, farmingExperience, farmType, location, now);
        assert t'.users[|t.users|].email == email;
        (Ok(t.nextUserId), WithTables(t'))
  }

  /**
   * The example run as written, on an empty configured database and a
   * fresh stray file: the creation fails, and even when the stray file has a
   * `users` table and the creation succeeds there, signing in on the
   * configured database with the same credentials fails, whereas the
   * corrected creation makes that sign-in succeed.
   */
  lemma AsWrittenAccountIsUnreachable(sha256: string -> string, stray: StrayFile)
    ensures var hash := sha256("testpassword");
            var r := CreateUserAsWritten(stray, "Test User", "test@example.com", hash, "beginner", "crop",
                                         "Test Location", 0);
            && (stray.NoUsersTable? ==> r.0.Err?)
            && FindByCredentials(EmptyTables.users, "test@example.com", hash).None?
            && FindByCredentials(AddUser(EmptyTables, "Test User", "test@example.com", hash, "beginner", "crop",
                                         "Test Location", 0).users, "test@example.com", hash).Some?
  {
    var hash := sha256("testpassword");
    AddUserThenFind(EmptyTables, "Test User", "test@example.com", hash, "beginner", "crop", "Test Location", 0);
  }
}
