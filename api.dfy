// main.py: the route handlers. Handlers that change the database are
// methods on the store; read-only ones are functions of the tables they
// read. A handler behind `Depends(validate_token_from_header)` receives the
// claims that check returned (module Security); the clock is `now`.

module Api {
  import opened Wrappers
  import opened Http
  import opened Tables
  import opened Schema
  import opened Database
  import opened Validators
  import opened Security
  import JsonList

  /** The roles a user may register with. */
  const Roles: seq<string> := ["admin", "farmer", "landlord"]

  datatype RegisterRequest = RegisterRequest(email: string, password: string, role: string)
  datatype LoginRequest = LoginRequest(email: string, password: string)
  datatype FarmerDetailsRequest = FarmerDetailsRequest(userId: Option<int>, acres: int, previousExperience: string)
  datatype LandlordDetailsRequest = LandlordDetailsRequest(
    userId: Option<int>, landType: string, acres: int, location: string, images: seq<string>)
  datatype ConnectRequest = ConnectRequest(farmerId: int, landlordId: int)

  datatype UserOut = UserOut(id: nat, email: string, role: string)
  datatype LoginResponse = LoginResponse(accessToken: Jwt, tokenType: string, refreshToken: Jwt, user: UserOut)
  datatype FarmerOut = FarmerOut(userId: nat, acres: int, previousExperience: string)
  datatype LandlordOut = LandlordOut(userId: nat, landType: string, acres: int, location: string)
  datatype Stats = Stats(totalFarmers: nat, totalLandlords: nat, totalSpaces: nat,
                         totalConnections: nat, totalAcres: int)
  datatype UserSpaces = UserSpaces(userId: nat, spacesCount: nat)

  const EmailTaken: HttpError := HttpError(BadRequest, "Email already registered")
  const InvalidRole: HttpError := HttpError(BadRequest, "Invalid role")
  const InvalidCredentials: HttpError := HttpError(Unauthorized, "Invalid credentials")
  const NoPermission: HttpError := HttpError(BadRequest, "You Dont have permission to access.")
  const UserNotFound: HttpError := HttpError(NotFound, "User not found")
  const MissingFarmerId: HttpError := HttpError(BadRequest, "Please provide farmer id")
  const MissingLandlordId: HttpError := HttpError(BadRequest, "Please provide landlord id")
  const FarmerExists: HttpError := HttpError(BadRequest, "Farmer already exists")
  const LandlordExists: HttpError := HttpError(BadRequest, "landlord already exists")
  const ProfilesNotFound: HttpError := HttpError(NotFound, "Farmer or Landlord not found")
  const SpaceNotFound: HttpError := HttpError(NotFound, "Space not found")
  const FarmerNotFound: HttpError := HttpError(NotFound, "Farmer not found")
  const LandlordNotFound: HttpError := HttpError(NotFound, "Landlord not found")
  const NotAuthorized: HttpError := HttpError(Unauthorized, "You are not authorized")

  /** 403 for a caller who is not an admin; `action` completes "Only admins can ...". */
  function AdminsOnly(action: string): HttpError {
    HttpError(Forbidden, "Only admins can " + action)
  }

  // ---------------------------------------------------------------------
  // Reading the caller's claims

  /** `user['role'] == role`. */
  predicate HasRole(claims: Claims, role: string) {
    "role" in claims && claims["role"] == Text(role)
  }

  /**
   * The stored user a claimed email names (`filter(User.email == user['email']).first()`);
   * a claim that is not a string names nobody.
   */
  function ClaimedUser(users: seq<Row<User>>, email: ClaimValue): (u: Option<Row<User>>)
    ensures u.Some? ==> u.value in users && email == Text(u.value.fields.email)
    ensures email.Text? && ValidateUserRegistration(users, email.text) ==> u.Some?
  {
    if email.Text? then UserByEmail(users, email.text) else None
  }

  /**
   * `is_admin(db, user['email'])`: 500 when the claims carry no email
   * (the KeyError escapes), otherwise whether that user is an admin.
   */
  function CallerIsAdmin(users: seq<Row<User>>, claims: Claims): (r: Result<bool, HttpError>)
    ensures r.Failure? <==> "email" !in claims
    ensures r.Failure? ==> r.error == Crash
    ensures r == Success(true) ==> ClaimedUser(users, claims["email"]).Some? &&
                                   ClaimedUser(users, claims["email"]).value.fields.role == "admin"
    ensures r == Success(false) ==>
              "email" in claims &&
              (ClaimedUser(users, claims["email"]).None? || ClaimedUser(users, claims["email"]).value.fields.role != "admin")
  {
    if "email" !in claims then Failure(Crash)
    else Success(claims["email"].Text? && IsAdmin(users, claims["email"].text))
  }

  // ---------------------------------------------------------------------
  // POST /register

  /** Lines 47-58: register a user with a fresh email and a known role. */
  method RegisterUser(db: Store, req: RegisterRequest) returns (r: Result<UserOut, HttpError>)
    requires db.Consistent()
    modifies db`users
    ensures db.Consistent()
    ensures ValidateUserRegistration(old(db.users), req.email) ==> r == Failure(EmailTaken)
    ensures !ValidateUserRegistration(old(db.users), req.email) && req.role !in Roles ==> r == Failure(InvalidRole)
    ensures !ValidateUserRegistration(old(db.users), req.email) && req.role in Roles ==> r.Success?
    ensures r.Failure? ==> db.users == old(db.users)
    ensures r.Success? ==>
              r.value == UserOut(NextId(old(db.users)), req.email, req.role) &&
              db.users == Insert(old(db.users), User(req.email, req.password, req.role))
  {
    if ValidateUserRegistration(db.users, req.email) {
      return Failure(EmailTaken);
    }
    if req.role !in Roles {
      return Failure(InvalidRole);
    }
    var u := User(req.email, req.password, req.role);
    var id := db.AddUser(u);
    return Success(UserOut(id.value, req.email, req.role));
  }

  // ---------------------------------------------------------------------
  // POST /login

  /** The claims both tokens of a session carry. */
  function SessionClaims(u: User): (c: Claims)
    ensures c.Keys == {"email", "role"}
    ensures c["email"] == Text(u.email) && c["role"] == Text(u.role)
  {
    map["email" := Text(u.email), "role" := Text(u.role)]
  }

  /**
   * Lines 61-85: plain password comparison against the user with that
   * email; both tokens carry the user's email and role.
   */
  function LoginUser(users: seq<Row<User>>, req: LoginRequest, now: int): (r: Result<LoginResponse, HttpError>)
    ensures r.Failure? <==> !ValidateUserLogin(users, req.email, req.password)
    ensures r.Failure? ==> r.error == InvalidCredentials
    ensures r.Success? ==>
              Row(r.value.user.id, User(req.email, req.password, r.value.user.role)) in users &&
              r.value.user.email == req.email && r.value.tokenType == "bearer"
    ensures r.Success? ==>
              var claims := SessionClaims(User(req.email, req.password, r.value.user.role));
              r.value.accessToken == CreateAccessToken(claims, now, None) &&
              r.value.refreshToken == CreateRefreshToken(claims, now, None)
  {
    match UserByEmail(users, req.email)
    case None => Failure(InvalidCredentials)
    case Some(u) =>
      if !ValidateUserLogin(users, req.email, req.password) then Failure(InvalidCredentials)
      else
        var claims := SessionClaims(u.fields);
        Success(LoginResponse(CreateAccessToken(claims, now, None), "bearer",
                              CreateRefreshToken(claims, now, None),
                              UserOut(u.id, u.fields.email, u.fields.role)))
  }

  /** A user who has just registered can log in with the same email and password. */
  lemma RegisterThenLogin(users: seq<Row<User>>, req: RegisterRequest, now: int)
    requires !ValidateUserRegistration(users, req.email)
    ensures var r := LoginUser(Insert(users, User(req.email, req.password, req.role)),
                               LoginRequest(req.email, req.password), now);
            r.Success? && r.value.user == UserOut(NextId(users), req.email, req.role)
  {
    var u := User(req.email, req.password, req.role);
    FirstAfterInsert(users, u, (r: Row<User>) => r.fields.email == req.email);
  }

  /**
   * Registering a user does not change any login result, except a login
   * with the new user's email when that email was not stored before.
   */
  lemma LoginUnaffectedByOtherUsers(users: seq<Row<User>>, u: User, req: LoginRequest, now: int)
    requires ValidateUserRegistration(users, req.email) || u.email != req.email
    ensures LoginUser(Insert(users, u), req, now) == LoginUser(users, req, now)
  {
    if ValidateUserRegistration(users, req.email) {
      FirstKeptByInsert(users, u, (r: Row<User>) => r.fields.email == req.email);
    } else {
      var grown := Insert(users, u);
      assert forall j :: 0 <= j < |users| ==> grown[j] == users[j];
      assert !ValidateUserRegistration(grown, req.email);
    }
  }

  // ---------------------------------------------------------------------
  // POST /refresh-token

  const InvalidRefreshToken: HttpError := HttpError(Unauthorized, "Invalid refresh token")
  /** The refresh route answers an unknown user with 401, unlike the 404 of `UserNotFound`. */
  const RefreshUserNotFound: HttpError := HttpError(Unauthorized, "User not found")

  /** The user named by a claim, if the payload has that claim. */
  function UserOfClaim(users: seq<Row<User>>, payload: Claims, key: string): (u: Option<Row<User>>)
    ensures u.Some? ==> key in payload && u.value in users && payload[key] == Text(u.value.fields.email)
  {
    if key in payload then ClaimedUser(users, payload[key]) else None
  }

  /**
   * Lines 90-108 as written: the user is looked up by the claim "sub",
   * and the new access token carries only "sub".
   */
  function RefreshTokenAsWritten(users: seq<Row<User>>, token: string, decode: string -> Option<Claims>,
                                 now: int): (r: Result<Jwt, HttpError>)
    ensures decode(token).None? ==> r == Failure(TokenRejected)
    ensures decode(token) == Some(map[]) ==> r == Failure(InvalidRefreshToken)
    ensures decode(token).Some? && decode(token).value != map[] ==>
              var named := UserOfClaim(users, decode(token).value, "sub");
              if named.None? then r == Failure(RefreshUserNotFound)
              else r == Success(CreateAccessToken(map["sub" := Text(named.value.fields.email)], now, None))
  {
    match VerifyToken(token, decode)
    case Failure(e) => Failure(e)
    case Success(payload) =>
      if payload == map[] then Failure(InvalidRefreshToken)
      else
        match UserOfClaim(users, payload, "sub")
        case None => Failure(RefreshUserNotFound)
        case Some(u) => Success(CreateAccessToken(map["sub" := Text(u.fields.email)], now, None))
  }

  /** Every refresh token that login hands out is refused by the route as written. */
  lemma RefreshAsWrittenRefusesLoginTokens(users: seq<Row<User>>, req: LoginRequest, issuedAt: int,
                                           token: string, decode: string -> Option<Claims>, now: int)
    requires LoginUser(users, req, issuedAt).Success?
    requires decode(token) == Some(LoginUser(users, req, issuedAt).value.refreshToken.claims)
    ensures RefreshTokenAsWritten(users, token, decode, now) == Failure(RefreshUserNotFound)
  {
    var claims := LoginUser(users, req, issuedAt).value.refreshToken.claims;
    assert "email" in claims;
    assert "sub" !in claims;
  }

  /**
   * Lines 90-108 as intended: the user is looked up by the claim "email"
   * that login puts in the token, and the new access token carries that
   * user's email and role, like the one login issues.
   */
  function RefreshToken(users: seq<Row<User>>, token: string, decode: string -> Option<Claims>,
                        now: int): (r: Result<Jwt, HttpError>)
    ensures decode(token).None? ==> r == Failure(TokenRejected)
    ensures decode(token) == Some(map[]) ==> r == Failure(InvalidRefreshToken)
    ensures decode(token).Some? && decode(token).value != map[] ==>
              var named := UserOfClaim(users, decode(token).value, "email");
              if named.None? then r == Failure(RefreshUserNotFound)
              else r == Success(CreateAccessToken(SessionClaims(named.value.fields), now, None))
    ensures r.Success? ==> exists u :: u in users && r.value == CreateAccessToken(SessionClaims(u.fields), now, None)
  {
    match VerifyToken(token, decode)
    case Failure(e) => Failure(e)
    case Success(payload) =>
      if payload == map[] then Failure(InvalidRefreshToken)
      else
        match UserOfClaim(users, payload, "email")
        case None => Failure(RefreshUserNotFound)
        case Some(u) => Success(CreateAccessToken(SessionClaims(u.fields), now, None))
  }

  /**
   * A refresh token from login gives a new access token with the same
   * claims as login's own access token issued at that time.
   */
  lemma RefreshAcceptsLoginTokens(users: seq<Row<User>>, req: LoginRequest, issuedAt: int,
                                  token: string, decode: string -> Option<Claims>, now: int)
    requires EmailsUnique(users)
    requires LoginUser(users, req, issuedAt).Success?
    requires decode(token) == Some(LoginUser(users, req, issuedAt).value.refreshToken.claims)
    ensures RefreshToken(users, token, decode, now) ==
            Success(LoginUser(users, req, now).value.accessToken)
  {
    var login := LoginUser(users, req, issuedAt).value;
    var claims := login.refreshToken.claims;
    assert claims["email"] == Text(req.email);
    var k :| 0 <= k < |users| && users[k] == Row(login.user.id, User(req.email, req.password, login.user.role));
    UserByEmailUnique(users, req.email, k);
  }

  // ---------------------------------------------------------------------
  // GET /dashboard

  /** Sum of `land_handling_capacity` over the farmer profiles. */
  function FarmerAcres(farmers: seq<Row<FarmerDetails>>): (total: int)
    ensures (forall i :: 0 <= i < |farmers| ==> farmers[i].fields.landHandlingCapacity >= 1) ==> total >= |farmers|
  {
    if farmers == [] then 0
    else FarmerAcres(farmers[..|farmers| - 1]) + farmers[|farmers| - 1].fields.landHandlingCapacity
  }

  /** Sum of `acres` over the landlord profiles. */
  function LandlordAcres(landlords: seq<Row<LandlordDetails>>): (total: int)
    ensures (forall i :: 0 <= i < |landlords| ==> landlords[i].fields.acres >= 1) ==> total >= |landlords|
  {
    if landlords == [] then 0
    else LandlordAcres(landlords[..|landlords| - 1]) + landlords[|landlords| - 1].fields.acres
  }

  /**
   * Lines 113-136: the table counts, connections as the number of spaces,
   * and the acres of all profiles together.
   */
  function DashboardStats(farmers: seq<Row<FarmerDetails>>, landlords: seq<Row<LandlordDetails>>,
                          spaces: seq<Row<Space>>): (s: Stats)
    ensures s.totalFarmers == |farmers| && s.totalLandlords == |landlords|
    ensures s.totalConnections == s.totalSpaces == |spaces|
    ensures s.totalAcres == FarmerAcres(farmers) + LandlordAcres(landlords)
  {
    Stats(|farmers|, |landlords|, |spaces|, |spaces|, FarmerAcres(farmers) + LandlordAcres(landlords))
  }

  /** A new farmer profile adds one farmer and its capacity to the totals. */
  lemma DashboardAfterNewFarmer(farmers: seq<Row<FarmerDetails>>, landlords: seq<Row<LandlordDetails>>,
                                spaces: seq<Row<Space>>, f: FarmerDetails)
    ensures var before := DashboardStats(farmers, landlords, spaces);
            DashboardStats(Insert(farmers, f), landlords, spaces) ==
            before.(totalFarmers := before.totalFarmers + 1,
                    totalAcres := before.totalAcres + f.landHandlingCapacity)
  {
    assert Insert(farmers, f)[..|farmers|] == farmers;
  }

  /** A new landlord profile adds one landlord and its acres to the totals. */
  lemma DashboardAfterNewLandlord(farmers: seq<Row<FarmerDetails>>, landlords: seq<Row<LandlordDetails>>,
                                  spaces: seq<Row<Space>>, l: LandlordDetails)
    ensures var before := DashboardStats(farmers, landlords, spaces);
            DashboardStats(farmers, Insert(landlords, l), spaces) ==
            before.(totalLandlords := before.totalLandlords + 1,
                    totalAcres := before.totalAcres + l.acres)
  {
    assert Insert(landlords, l)[..|landlords|] == landlords;
  }

  /** Removing a stored space takes one off both the space and the connection count. */
  lemma DashboardAfterRemoveSpace(farmers: seq<Row<FarmerDetails>>, landlords: seq<Row<LandlordDetails>>,
                                  spaces: seq<Row<Space>>, id: nat)
    requires IdsIncreasing(spaces) && HasId(spaces, id)
    ensures var before := DashboardStats(farmers, landlords, spaces);
            var after := DashboardStats(farmers, landlords, Delete(spaces, id));
            after.totalSpaces == after.totalConnections == before.totalSpaces - 1
  {
    DeleteStoredRow(spaces, id);
  }

  // ---------------------------------------------------------------------
  // GET /farmers and GET /landlords

  /** Lines 141-147: farmers and admins may list the farmer profiles. */
  function GetAllFarmers(claims: Claims, farmers: seq<Row<FarmerDetails>>): (r: Result<seq<Row<FarmerDetails>>, HttpError>)
    ensures "role" !in claims ==> r == Failure(Crash)
    ensures "role" in claims ==> (r.Success? <==> HasRole(claims, "farmer") || HasRole(claims, "admin"))
    ensures "role" in claims && r.Failure? ==> r.error == NoPermission
    ensures r.Success? ==> r.value == farmers
  {
    if "role" !in claims then Failure(Crash)
    else if claims["role"] in [Text("farmer"), Text("admin")] then Success(farmers)
    else Failure(NoPermission)
  }

  /** Lines 151-156: landlords and admins may list the landlord profiles. */
  function GetAllLandlords(claims: Claims, landlords: seq<Row<LandlordDetails>>): (r: Result<seq<Row<LandlordDetails>>, HttpError>)
    ensures "role" !in claims ==> r == Failure(Crash)
    ensures "role" in claims ==> (r.Success? <==> HasRole(claims, "landlord") || HasRole(claims, "admin"))
    ensures "role" in claims && r.Failure? ==> r.error == NoPermission
    ensures r.Success? ==> r.value == landlords
  {
    if "role" !in claims then Failure(Crash)
    else if claims["role"] in [Text("landlord"), Text("admin")] then Success(landlords)
    else Failure(NoPermission)
  }

  // ---------------------------------------------------------------------
  // POST /farmer/register and POST /landlord/register

  /**
   * Lines 161-168 and 186-194: whose profile is being registered. An admin
   * names the user by a non-zero id; a caller with the profile's own role
   * registers themself, found by the email in their token; an admin
   * without an id is refused. Reading `.id` off a lookup that found no
   * user raises, which the server answers with 500.
   */
  function ProfileOwner(users: seq<Row<User>>, claims: Claims, profileRole: string,
                        requested: Option<int>, missingId: HttpError): (r: Result<nat, HttpError>)
    requires profileRole != "admin"
    ensures "role" !in claims ==> r == Failure(Crash)
    ensures "role" in claims && !HasRole(claims, "admin") && !HasRole(claims, profileRole) ==>
              r == Failure(NoPermission)
    ensures HasRole(claims, "admin") && (requested.None? || requested.value == 0) ==> r == Failure(missingId)
    ensures HasRole(claims, "admin") && requested.Some? && requested.value != 0 ==>
              r == if HasId(users, requested.value) then Success(requested.value as nat) else Failure(Crash)
    ensures HasRole(claims, profileRole) && ("email" !in claims || ClaimedUser(users, claims["email"]).None?) ==>
              r == Failure(Crash)
    ensures HasRole(claims, profileRole) && "email" in claims && ClaimedUser(users, claims["email"]).Some? ==>
              r == Success(ClaimedUser(users, claims["email"]).value.id)
    ensures r.Success? ==> HasId(users, r.value)
    ensures r.Success? && HasRole(claims, profileRole) ==>
              "email" in claims && ClaimedUser(users, claims["email"]).Some? &&
              ClaimedUser(users, claims["email"]).value.id == r.value
  {
    if "role" !in claims then Failure(Crash)
    else if claims["role"] != Text("admin") && claims["role"] != Text(profileRole) then Failure(NoPermission)
    else if claims["role"] == Text("admin") && requested.Some? && requested.value != 0 then
      match UserById(users, requested.value)
      case None => Failure(Crash)
      case Some(u) => Success(u.id)
    else if claims["role"] == Text(profileRole) then
      if "email" !in claims then Failure(Crash)
      else
        match ClaimedUser(users, claims["email"])
        case None => Failure(Crash)
        case Some(u) => assert u in users; Success(u.id)
    else Failure(missingId)
  }

  /** The row a new farmer profile gets: the acres become its capacity, the locations default to []. */
  function NewFarmer(userId: nat, acres: int): FarmerDetails {
    FarmerDetails(userId, None, acres, JsonList.ProcessBindParam(Some([])))
  }

  /** Lines 160-181: add the farmer profile of a user who has none. */
  method RegisterFarmer(db: Store, claims: Claims, req: FarmerDetailsRequest) returns (r: Result<FarmerOut, HttpError>)
    requires db.Consistent()
    modifies db`farmers
    ensures db.Consistent()
    ensures var owner := ProfileOwner(old(db.users), claims, "farmer", req.userId, MissingFarmerId);
            if owner.Failure? then r == Failure(owner.error) && db.farmers == old(db.farmers)
            else if FarmerOfUser(old(db.farmers), owner.value).Some? then
              r == Failure(FarmerExists) && db.farmers == old(db.farmers)
            else if ValidateFarmerDetails(req.acres, req.previousExperience).Failure? then
              r == Failure(Crash) && db.farmers == old(db.farmers)
            else
              r == Success(FarmerOut(owner.value, req.acres, req.previousExperience)) &&
              db.farmers == Insert(old(db.farmers), NewFarmer(owner.value, req.acres))
  {
    var owner := ProfileOwner(db.users, claims, "farmer", req.userId, MissingFarmerId);
    if owner.Failure? {
      return Failure(owner.error);
    }
    var userId := owner.value;
    if FarmerOfUser(db.farmers, userId).Some? {
      return Failure(FarmerExists);
    }
    if ValidateFarmerDetails(req.acres, req.previousExperience).Failure? {
      return Failure(Crash);
    }
    var f := NewFarmer(userId, req.acres);
    var _ := db.AddFarmer(f);
    return Success(FarmerOut(userId, req.acres, req.previousExperience));
  }

  /** The row a new landlord profile gets: the land type becomes its soil type, the images are stored as JSON. */
  function NewLandlord(userId: nat, req: LandlordDetailsRequest): LandlordDetails {
    LandlordDetails(userId, None, req.landType, req.acres, req.location,
                    JsonList.ProcessBindParam(Some(req.images)))
  }

  /** Lines 185-208: add the landlord profile of a user who has none. */
  method RegisterLandlord(db: Store, claims: Claims, req: LandlordDetailsRequest) returns (r: Result<LandlordOut, HttpError>)
    requires db.Consistent()
    modifies db`landlords
    ensures db.Consistent()
    ensures var owner := ProfileOwner(old(db.users), claims, "landlord", req.userId, MissingLandlordId);
            if owner.Failure? then r == Failure(owner.error) && db.landlords == old(db.landlords)
            else if LandlordOfUser(old(db.landlords), owner.value).Some? then
              r == Failure(LandlordExists) && db.landlords == old(db.landlords)
            else if ValidateLandlordDetails(req.landType, req.acres, req.location).Failure? then
              r == Failure(Crash) && db.landlords == old(db.landlords)
            else
              r == Success(LandlordOut(owner.value, req.landType, req.acres, req.location)) &&
              db.landlords == Insert(old(db.landlords), NewLandlord(owner.value, req))
  {
    var owner := ProfileOwner(db.users, claims, "landlord", req.userId, MissingLandlordId);
    if owner.Failure? {
      return Failure(owner.error);
    }
    var userId := owner.value;
    if LandlordOfUser(db.landlords, userId).Some? {
      return Failure(LandlordExists);
    }
    if ValidateLandlordDetails(req.landType, req.acres, req.location).Failure? {
      return Failure(Crash);
    }
    var l := NewLandlord(userId, req);
    var _ := db.AddLandlord(l);
    return Success(LandlordOut(userId, req.landType, req.acres, req.location));
  }

  /** The images a landlord registered with read back unchanged from the stored profile. */
  lemma RegisteredImagesReadBack(userId: nat, req: LandlordDetailsRequest)
    ensures JsonList.ProcessResultValue(NewLandlord(userId, req).imagesList) == Success(Some(req.images))
  {
    JsonList.ColumnRoundTrip(Some(req.images));
  }

  // ---------------------------------------------------------------------
  // POST /admin/register-admin

  /** Lines 212-223: an admin registers another admin under a fresh email. */
  method RegisterAdmin(db: Store, claims: Claims, req: LoginRequest) returns (r: Result<nat, HttpError>)
    requires db.Consistent()
    modifies db`users
    ensures db.Consistent()
    ensures var admin := CallerIsAdmin(old(db.users), claims);
            if admin.Failure? then r == Failure(Crash)
            else if !admin.value then r == Failure(AdminsOnly("register new admins"))
            else if ValidateUserRegistration(old(db.users), req.email) then r == Failure(EmailTaken)
            else r == Success(NextId(old(db.users))) &&
                 db.users == Insert(old(db.users), User(req.email, req.password, "admin"))
    ensures r.Failure? ==> db.users == old(db.users)
  {
    var admin := CallerIsAdmin(db.users, claims);
    if admin.Failure? {
      return Failure(Crash);
    }
    if !admin.value {
      return Failure(AdminsOnly("register new admins"));
    }
    if ValidateUserRegistration(db.users, req.email) {
      return Failure(EmailTaken);
    }
    var u := User(req.email, req.password, "admin");
    var id := db.AddUser(u);
    return Success(id.value);
  }

  // ---------------------------------------------------------------------
  // POST /admin/connect

  /**
   * Lines 227-240: the space an admin's connect request creates. The
   * profiles are looked up by user id; the space stores the two profile
   * ids and the calling admin's user id.
   */
  function NewConnection(users: seq<Row<User>>, farmers: seq<Row<FarmerDetails>>,
                         landlords: seq<Row<LandlordDetails>>, claims: Claims, req: ConnectRequest): (r: Result<Space, HttpError>)
    ensures CallerIsAdmin(users, claims).Failure? ==> r == Failure(Crash)
    ensures CallerIsAdmin(users, claims) == Success(false) ==> r == Failure(AdminsOnly("create connections"))
    ensures CallerIsAdmin(users, claims) == Success(true) ==>
              (r.Failure? <==> FarmerOfUser(farmers, req.farmerId).None? || LandlordOfUser(landlords, req.landlordId).None?)
    ensures r.Failure? && CallerIsAdmin(users, claims) == Success(true) ==> r.error == ProfilesNotFound
    ensures r.Success? ==>
              r.value.description.None? &&
              Row(r.value.farmerId, FarmerOfUser(farmers, req.farmerId).value.fields) in farmers &&
              FarmerOfUser(farmers, req.farmerId).value.fields.userId == req.farmerId &&
              Row(r.value.landlordId, LandlordOfUser(landlords, req.landlordId).value.fields) in landlords &&
              LandlordOfUser(landlords, req.landlordId).value.fields.userId == req.landlordId
    ensures r.Success? ==>
              exists k :: 0 <= k < |users| && users[k].id == r.value.adminId &&
                          users[k].fields.role == "admin" && claims["email"] == Text(users[k].fields.email)
  {
    match CallerIsAdmin(users, claims)
    case Failure(_) => Failure(Crash)
    case Success(admin) =>
      if !admin then Failure(AdminsOnly("create connections"))
      else
        var farmer := FarmerOfUser(farmers, req.farmerId);
        var landlord := LandlordOfUser(landlords, req.landlordId);
        var caller := ClaimedUser(users, claims["email"]).value;
        if farmer.None? || landlord.None? then Failure(ProfilesNotFound)
        else
          assert exists k :: 0 <= k < |users| && users[k] == caller;
          Success(Space(farmer.value.id, landlord.value.id, caller.id, None))
  }

  /** Lines 227-242: store the space of a connect request and return its id. */
  method ConnectFarmerLandlord(db: Store, claims: Claims, req: ConnectRequest) returns (r: Result<nat, HttpError>)
    requires db.Consistent()
    modifies db`spaces
    ensures db.Consistent()
    ensures old(db.ReferencesIntact()) ==> db.ReferencesIntact()
    ensures var c := NewConnection(old(db.users), old(db.farmers), old(db.landlords), claims, req);
            if c.Failure? then r == Failure(c.error) && db.spaces == old(db.spaces)
            else r == Success(NextId(old(db.spaces))) && db.spaces == Insert(old(db.spaces), c.value)
  {
    var c := NewConnection(db.users, db.farmers, db.landlords, claims, req);
    if c.Failure? {
      return Failure(c.error);
    }
    var id := db.AddSpace(c.value);
    return Success(id);
  }

  // ---------------------------------------------------------------------
  // GET /user/{user_id}/spaces

  /** The spaces an admin created. */
  function SpacesOf(spaces: seq<Row<Space>>, adminId: int): (mine: seq<Row<Space>>)
    ensures forall i :: 0 <= i < |mine| ==> mine[i] in spaces && mine[i].fields.adminId == adminId
    ensures forall i :: 0 <= i < |spaces| && spaces[i].fields.adminId == adminId ==> spaces[i] in mine
  {
    Where(spaces, (s: Row<Space>) => s.fields.adminId == adminId)
  }

  /** Lines 246-252: how many spaces a stored user created (no token needed). */
  function GetUserSpaces(users: seq<Row<User>>, spaces: seq<Row<Space>>, userId: int): (r: Result<UserSpaces, HttpError>)
    ensures r.Failure? <==> !HasId(users, userId)
    ensures r.Failure? ==> r.error == UserNotFound
    ensures r.Success? ==> r.value.userId == userId && r.value.spacesCount == |SpacesOf(spaces, userId)|
    ensures r.Success? ==> r.value.spacesCount <= |spaces|
  {
    match UserById(users, userId)
    case None => Failure(UserNotFound)
    case Some(u) => Success(UserSpaces(u.id, |SpacesOf(spaces, userId)|))
  }

  /** A connection made by an admin adds one to that admin's count and nothing to anyone else's. */
  lemma ConnectCountsForItsAdmin(users: seq<Row<User>>, spaces: seq<Row<Space>>, s: Space, userId: int)
    requires HasId(users, userId)
    ensures GetUserSpaces(users, Insert(spaces, s), userId).Success?
    ensures GetUserSpaces(users, Insert(spaces, s), userId).value.spacesCount ==
            GetUserSpaces(users, spaces, userId).value.spacesCount + (if s.adminId == userId then 1 else 0)
  {
    WhereAppend(spaces, Row(NextId(spaces), s), (x: Row<Space>) => x.fields.adminId == userId);
  }

  // ---------------------------------------------------------------------
  // DELETE /admin/remove-space, /admin/delete-farmer, /admin/delete-landlord

  /** Lines 256-267: an admin removes a stored space, with its crops and their proofs. */
  method RemoveSpace(db: Store, claims: Claims, spaceId: int) returns (r: Result<string, HttpError>)
    requires db.Consistent()
    modifies db`spaces, db`crops, db`proofs
    ensures db.Consistent()
    ensures old(db.ReferencesIntact()) ==> db.ReferencesIntact()
    ensures var admin := CallerIsAdmin(old(db.users), claims);
            if admin.Failure? then r == Failure(Crash)
            else if !admin.value then r == Failure(AdminsOnly("remove spaces"))
            else if !HasId(old(db.spaces), spaceId) then r == Failure(SpaceNotFound)
            else r == Success("Space removed successfully") &&
                 db.spaces == Delete(old(db.spaces), spaceId as nat) &&
                 db.crops == CropsWithoutSpace(old(db.crops), spaceId as nat) &&
                 db.proofs == ProofsWithoutCrops(old(db.proofs), CropsOfSpace(old(db.crops), spaceId as nat))
    ensures r.Failure? ==> db.spaces == old(db.spaces) && db.crops == old(db.crops) && db.proofs == old(db.proofs)
    ensures r.Success? ==> |db.spaces| == |old(db.spaces)| - 1
  {
    var admin := CallerIsAdmin(db.users, claims);
    if admin.Failure? {
      return Failure(Crash);
    }
    if !admin.value {
      return Failure(AdminsOnly("remove spaces"));
    }
    if !HasId(db.spaces, spaceId) {
      return Failure(SpaceNotFound);
    }
    DeleteStoredRow(db.spaces, spaceId as nat);
    db.DeleteSpace(spaceId as nat);
    return Success("Space removed successfully");
  }

  /** Lines 271-282: an admin deletes a farmer profile by its own id. */
  method DeleteFarmer(db: Store, claims: Claims, farmerId: int) returns (r: Result<string, HttpError>)
    requires db.Consistent()
    modifies db`farmers
    ensures db.Consistent()
    ensures var admin := CallerIsAdmin(old(db.users), claims);
            if admin.Failure? then r == Failure(Crash)
            else if !admin.value then r == Failure(AdminsOnly("delete farmers"))
            else if !HasId(old(db.farmers), farmerId) then r == Failure(FarmerNotFound)
            else r == Success("Farmer deleted successfully") &&
                 db.farmers == Delete(old(db.farmers), farmerId as nat)
    ensures r.Failure? ==> db.farmers == old(db.farmers)
    ensures r.Success? ==> |db.farmers| == |old(db.farmers)| - 1
  {
    var admin := CallerIsAdmin(db.users, claims);
    if admin.Failure? {
      return Failure(Crash);
    }
    if !admin.value {
      return Failure(AdminsOnly("delete farmers"));
    }
    if !HasId(db.farmers, farmerId) {
      return Failure(FarmerNotFound);
    }
    DeleteStoredRow(db.farmers, farmerId as nat);
    db.DeleteFarmer(farmerId as nat);
    return Success("Farmer deleted successfully");
  }

  /** Lines 286-297: an admin deletes a landlord profile by its own id. */
  method DeleteLandlord(db: Store, claims: Claims, landlordId: int) returns (r: Result<string, HttpError>)
    requires db.Consistent()
    modifies db`landlords
    ensures db.Consistent()
    ensures var admin := CallerIsAdmin(old(db.users), claims);
            if admin.Failure? then r == Failure(Crash)
            else if !admin.value then r == Failure(AdminsOnly("delete landlords"))
            else if !HasId(old(db.landlords), landlordId) then r == Failure(LandlordNotFound)
            else r == Success("Landlord deleted successfully") &&
                 db.landlords == Delete(old(db.landlords), landlordId as nat)
    ensures r.Failure? ==> db.landlords == old(db.landlords)
    ensures r.Success? ==> |db.landlords| == |old(db.landlords)| - 1
  {
    var admin := CallerIsAdmin(db.users, claims);
    if admin.Failure? {
      return Failure(Crash);
    }
    if !admin.value {
      return Failure(AdminsOnly("delete landlords"));
    }
    if !HasId(db.landlords, landlordId) {
      return Failure(LandlordNotFound);
    }
    DeleteStoredRow(db.landlords, landlordId as nat);
    db.DeleteLandlord(landlordId as nat);
    return Success("Landlord deleted successfully");
  }

  // ---------------------------------------------------------------------
  // PUT /farmer/update/{farmer_id} and PUT /landlord/update/{landlord_id}

  /**
   * Lines 302-304 and 322-324: who may edit the profile of user
   * `profileUserId` — an admin, or the user themself, found by the email
   * in their token. None when allowed, otherwise the error.
   */
  function ProfileEditDenied(users: seq<Row<User>>, claims: Claims, profileUserId: int): (r: Option<HttpError>)
    ensures "email" !in claims || "role" !in claims ==> r == Some(Crash)
    ensures "email" in claims && "role" in claims ==>
              (r.None? <==> HasRole(claims, "admin") ||
                            (ClaimedUser(users, claims["email"]).Some? &&
                             ClaimedUser(users, claims["email"]).value.id != 0 &&
                             ClaimedUser(users, claims["email"]).value.id == profileUserId))
    ensures r.Some? && "email" in claims && "role" in claims ==> r.value == NotAuthorized
  {
    if "email" !in claims then Some(Crash)
    else
      var caller := ClaimedUser(users, claims["email"]);
      if "role" !in claims then Some(Crash)
      else if claims["role"] != Text("admin") && (caller.None? || caller.value.id == 0 || caller.value.id != profileUserId) then
        Some(NotAuthorized)
      else None
  }

  /** The farmer profile after an update: the acres become its capacity. */
  function UpdatedFarmer(f: FarmerDetails, req: FarmerDetailsRequest): FarmerDetails {
    f.(landHandlingCapacity := req.acres)
  }

  /**
   * Lines 300-317: rewrite the farmer profile of user `userId`, found by
   * `user_id`, and return the profile's own id.
   */
  method UpdateFarmer(db: Store, claims: Claims, userId: int, req: FarmerDetailsRequest) returns (r: Result<nat, HttpError>)
    requires db.Consistent()
    modifies db`farmers
    ensures db.Consistent()
    ensures var denied := ProfileEditDenied(old(db.users), claims, userId);
            var farmer := FarmerOfUser(old(db.farmers), userId);
            if denied.Some? then r == Failure(denied.value) && db.farmers == old(db.farmers)
            else if farmer.None? then r == Failure(FarmerNotFound) && db.farmers == old(db.farmers)
            else r == Success(farmer.value.id) &&
                 db.farmers == Update(old(db.farmers), farmer.value.id, UpdatedFarmer(farmer.value.fields, req))
  {
    var denied := ProfileEditDenied(db.users, claims, userId);
    if denied.Some? {
      return Failure(denied.value);
    }
    var farmer := FarmerOfUser(db.farmers, userId);
    if farmer.None? {
      return Failure(FarmerNotFound);
    }
    ghost var k :| 0 <= k < |db.farmers| && db.farmers[k] == farmer.value;
    forall i | 0 <= i < |db.farmers| && db.farmers[i].id == farmer.value.id
      ensures db.farmers[i].fields.userId == farmer.value.fields.userId
    {
      SameIdSameRow(db.farmers, i, k);
    }
    db.UpdateFarmer(farmer.value.id, UpdatedFarmer(farmer.value.fields, req));
    return Success(farmer.value.id);
  }

  /** After an update, looking the user's farmer profile up again finds the new columns under the same id. */
  lemma UpdatedFarmerReadsBack(farmers: seq<Row<FarmerDetails>>, userId: int, req: FarmerDetailsRequest)
    requires IdsIncreasing(farmers) && FarmerOfUser(farmers, userId).Some?
    ensures var f := FarmerOfUser(farmers, userId).value;
            FarmerOfUser(Update(farmers, f.id, UpdatedFarmer(f.fields, req)), userId) ==
            Some(Row(f.id, UpdatedFarmer(f.fields, req)))
  {
    var f := FarmerOfUser(farmers, userId).value;
    var p := (r: Row<FarmerDetails>) => r.fields.userId == userId;
    var k := FindFirst(farmers, p).value;
    UpdateKeepsUserOfEachFarmer(farmers, k, UpdatedFarmer(f.fields, req));
    var u := Update(farmers, f.id, UpdatedFarmer(f.fields, req));
    FindFirstSameMatches(farmers, u, p);
  }

  /** The landlord profile after an update: land type, acres and location are replaced. */
  function UpdatedLandlord(l: LandlordDetails, req: LandlordDetailsRequest): LandlordDetails {
    l.(soilType := req.landType, acres := req.acres, location := req.location)
  }

  /** Lines 319-336: rewrite the landlord profile of user `userId`. */
  method UpdateLandlord(db: Store, claims: Claims, userId: int, req: LandlordDetailsRequest) returns (r: Result<nat, HttpError>)
    requires db.Consistent()
    modifies db`landlords
    ensures db.Consistent()
    ensures var denied := ProfileEditDenied(old(db.users), claims, userId);
            var landlord := LandlordOfUser(old(db.landlords), userId);
            if denied.Some? then r == Failure(denied.value) && db.landlords == old(db.landlords)
            else if landlord.None? then r == Failure(LandlordNotFound) && db.landlords == old(db.landlords)
            else r == Success(landlord.value.id) &&
                 db.landlords == Update(old(db.landlords), landlord.value.id, UpdatedLandlord(landlord.value.fields, req))
  {
    var denied := ProfileEditDenied(db.users, claims, userId);
    if denied.Some? {
      return Failure(denied.value);
    }
    var landlord := LandlordOfUser(db.landlords, userId);
    if landlord.None? {
      return Failure(LandlordNotFound);
    }
    ghost var k :| 0 <= k < |db.landlords| && db.landlords[k] == landlord.value;
    forall i | 0 <= i < |db.landlords| && db.landlords[i].id == landlord.value.id
      ensures db.landlords[i].fields.userId == landlord.value.fields.userId
    {
      SameIdSameRow(db.landlords, i, k);
    }
    db.UpdateLandlord(landlord.value.id, UpdatedLandlord(landlord.value.fields, req));
    return Success(landlord.value.id);
  }

  /** After an update, the user's landlord profile reads back with the new columns under the same id. */
  lemma UpdatedLandlordReadsBack(landlords: seq<Row<LandlordDetails>>, userId: int, req: LandlordDetailsRequest)
    requires IdsIncreasing(landlords) && LandlordOfUser(landlords, userId).Some?
    ensures var l := LandlordOfUser(landlords, userId).value;
            LandlordOfUser(Update(landlords, l.id, UpdatedLandlord(l.fields, req)), userId) ==
            Some(Row(l.id, UpdatedLandlord(l.fields, req)))
  {
    var l := LandlordOfUser(landlords, userId).value;
    var p := (r: Row<LandlordDetails>) => r.fields.userId == userId;
    var k := FindFirst(landlords, p).value;
    UpdateKeepsUserOfEachLandlord(landlords, k, UpdatedLandlord(l.fields, req));
    var u := Update(landlords, l.id, UpdatedLandlord(l.fields, req));
    FindFirstSameMatches(landlords, u, p);
  }

  // ---------------------------------------------------------------------
  // DELETE /crop/{crop_id}

  const CropNotFound: HttpError := HttpError(NotFound, "Crop not found")

  /** Lines 420-431: an admin or a farmer deletes a stored crop, and with it the crop's proofs. */
  method DeleteCrop(db: Store, claims: Claims, cropId: int) returns (r: Result<string, HttpError>)
    requires db.Consistent()
    modifies db`crops, db`proofs
    ensures db.Consistent()
    ensures old(db.ReferencesIntact()) ==> db.ReferencesIntact()
    ensures "role" !in claims ==> r == Failure(Crash)
    ensures "role" in claims && !HasRole(claims, "admin") && !HasRole(claims, "farmer") ==> r == Failure(NotAuthorized)
    ensures (HasRole(claims, "admin") || HasRole(claims, "farmer")) ==>
              if !HasId(old(db.crops), cropId) then r == Failure(CropNotFound)
              else r == Success("Crop deleted successfully") &&
                   db.crops == Delete(old(db.crops), cropId as nat) &&
                   db.proofs == ProofsWithoutCrops(old(db.proofs), {cropId as nat})
    ensures r.Failure? ==> db.crops == old(db.crops) && db.proofs == old(db.proofs)
  {
    if "role" !in claims {
      return Failure(Crash);
    }
    if claims["role"] !in [Text("admin"), Text("farmer")] {
      return Failure(NotAuthorized);
    }
    if !HasId(db.crops, cropId) {
      return Failure(CropNotFound);
    }
    db.DeleteCrop(cropId as nat);
    return Success("Crop deleted successfully");
  }
}
