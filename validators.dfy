// validators.py: read-only checks over the users table and field checks
// that raise ValueError with a fixed message.

module Validators {
  import opened Wrappers
  import opened Tables
  import opened Schema

  /** `validate_user_registration`: is the email already taken? */
  function ValidateUserRegistration(users: seq<Row<User>>, email: string): (taken: bool)
    ensures taken <==> exists i :: 0 <= i < |users| && users[i].fields.email == email
  {
    UserByEmail(users, email).Some?
  }

  /**
   * `validate_user_login`: the first user with that email exists and its
   * stored password equals the given one (plain string equality).
   */
  function ValidateUserLogin(users: seq<Row<User>>, email: string, password: string): (ok: bool)
    ensures ok ==> exists i :: 0 <= i < |users| && users[i].fields.email == email &&
                               users[i].fields.password == password
    ensures !ValidateUserRegistration(users, email) ==> !ok
  {
    match UserByEmail(users, email)
    case None => false
    case Some(u) => u.fields.password == password
  }

  /** With unique emails, login succeeds exactly when some user has both the email and the password. */
  lemma ValidateUserLoginExactly(users: seq<Row<User>>, email: string, password: string)
    requires EmailsUnique(users)
    ensures ValidateUserLogin(users, email, password) <==>
            exists i :: 0 <= i < |users| && users[i].fields.email == email &&
                        users[i].fields.password == password
  {
    if i :| 0 <= i < |users| && users[i].fields.email == email && users[i].fields.password == password {
      UserByEmailUnique(users, email, i);
    }
  }

  /** The ValueError messages of validators.py. */
  const AcresError: string := "Acres must be a positive number."
  const LandError: string := "Land type and location cannot be empty."

  /** `validate_farmer_details`: returns True, or raises for fewer than one acre. */
  function ValidateFarmerDetails(acres: int, previousExperience: string): (r: Result<bool, string>)
    ensures r.Failure? <==> acres < 1
    ensures r.Failure? ==> r.error == AcresError
    ensures r.Success? ==> r.value
  {
    if acres < 1 then Failure(AcresError) else Success(true)
  }

  /** The outcome does not depend on the stated previous experience. */
  lemma FarmerExperienceIgnored(acres: int, e1: string, e2: string)
    ensures ValidateFarmerDetails(acres, e1) == ValidateFarmerDetails(acres, e2)
  {
  }

  /**
   * `validate_landlord_details`: returns True, or raises — the acres check
   * first, then the check that land type and location are non-empty.
   */
  function ValidateLandlordDetails(landType: string, acres: int, location: string): (r: Result<bool, string>)
    ensures r.Failure? <==> acres < 1 || landType == [] || location == []
    ensures r.Failure? ==> r.error == if acres < 1 then AcresError else LandError
    ensures r.Success? ==> r.value
  {
    if acres < 1 then Failure(AcresError)
    else if landType == [] || location == [] then Failure(LandError)
    else Success(true)
  }

  /** `is_admin`: the first user with that email exists and has role "admin". */
  function IsAdmin(users: seq<Row<User>>, email: string): (admin: bool)
    ensures admin ==> exists i :: 0 <= i < |users| && users[i].fields.email == email &&
                                  users[i].fields.role == "admin"
    ensures !ValidateUserRegistration(users, email) ==> !admin
  {
    match UserByEmail(users, email)
    case None => false
    case Some(u) => u.fields.role == "admin"
  }

  /** With unique emails, a caller is an admin exactly when the user with that email has role "admin". */
  lemma IsAdminExactly(users: seq<Row<User>>, email: string)
    requires EmailsUnique(users)
    ensures IsAdmin(users, email) <==>
            exists i :: 0 <= i < |users| && users[i].fields.email == email &&
                        users[i].fields.role == "admin"
  {
    if i :| 0 <= i < |users| && users[i].fields.email == email && users[i].fields.role == "admin" {
      UserByEmailUnique(users, email, i);
    }
  }
}
