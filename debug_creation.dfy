/**
 * The insertion test of the user-creation debugger
 * (scripts/debug_user_creation.py). Its validator is
 * `Signup.ValidateUserData`.
 */
module DebugCreation {
  import opened Wrappers
  import opened Signup
  import opened Store

  /**
   * The error code of a refused insertion. UNIQUE_CONSTRAINT, INTEGRITY_ERROR
   * and UNKNOWN_ERROR answer driver failures the e-mail pre-check leaves no
   * input of this model to cause.
   */
  datatype DebugCreateError = EmailExists

  function DebugCreateErrorMessage(e: DebugCreateError): string {
    "Email address is already registered"
  }

  class UserCreationDebugger {
    /** The connection opened on `farmconnect.db`. */
    const connection: Database
    const sha256: string -> string

    constructor (connection: Database, sha256: string -> string)
      ensures this.connection == connection && this.sha256 == sha256
    {
      this.connection := connection;
      this.sha256 := sha256;
    }

    /**
     * `test_user_creation`: a taken e-mail yields EMAIL_EXISTS and no insert;
     * otherwise the table grows by exactly one row, the submitted one, and
     * its id is returned.
     */
    method TestUserCreation(d: SignupData, now: int) returns (r: Result<nat, DebugCreateError>)
      requires connection.Valid()
      modifies connection
      ensures connection.Valid()
      ensures EmailTaken(old(connection.users), d.email) ==>
                r == Err(EmailExists) && connection.State() == old(connection.State())
      ensures !EmailTaken(old(connection.users), d.email) ==>
                && r == Ok(old(connection.nextUserId))
                && connection.users == old(connection.users) + [NewUser(r.value, d.fullName, d.email, sha256(d.password),
                                                                        d.farmingExperience, d.farmType, d.location, now)]
                && connection.State() == AddUser(old(connection.State()), d.fullName, d.email, sha256(d.password),
                                                 d.farmingExperience, d.farmType, d.location, now)
    {
      if EmailTaken(connection.users, d.email) {
        return Err(EmailExists);
      }
      var id := connection.InsertUser(d.fullName, d.email, sha256(d.password), d.farmingExperience, d.farmType,
                                      d.location, now);
      r := Ok(id.value);
    }
  }

  /** The new id is fresh: it is larger than every id in the table before the insertion. */
  lemma NewIdIsFresh(t: Tables, fullName: string, email: string, passwordHash: string,
                     farmingExperience: string, farmType: string, location: string, now: int)
    requires TablesValid(t)
    ensures forall i :: 0 <= i < |t.users| ==> t.users[i].id < t.nextUserId
    ensures UserById(t.users, t.nextUserId).None?
    ensures UserById(AddUser(t, fullName, email, passwordHash, farmingExperience, farmType, location, now).users,
                     t.nextUserId)
            == Some(NewUser(t.nextUserId, fullName, email, passwordHash, farmingExperience, farmType, location, now))
  {
    var row := NewUser(t.nextUserId, fullName, email, passwordHash, farmingExperience, farmType, location, now);
    UserByIdAppend(t.users, row);
  }
}
