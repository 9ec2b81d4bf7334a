// The six tables of db.py, their columns, and the relations between them:
// the unique email, the one-to-one profile relations, the non-null
// foreign keys of a space, and the two delete cascades.

module Schema {
  import opened Wrappers
  import opened Tables

  /**
   * `users`: email is UNIQUE. The role column is free text; only the
   * registration handlers restrict it to "admin", "farmer" or "landlord".
   */
  datatype User = User(email: string, password: string, role: string)

  /**
   * `farmer_details`. `preferredLocations` holds the stored column text of
   * the JSON-encoded list (see module JsonList).
   */
  datatype FarmerDetails = FarmerDetails(
    userId: nat,
    phoneNumber: Option<string>,
    landHandlingCapacity: int,
    preferredLocations: Option<string>)

  /** `landlord_details`; `imagesList` is stored JSON text like `preferredLocations`. */
  datatype LandlordDetails = LandlordDetails(
    userId: nat,
    phoneNumber: Option<string>,
    soilType: string,
    acres: int,
    location: string,
    imagesList: Option<string>)

  /**
   * `spaces`: a farmer-landlord connection made by an admin. The three
   * references are NOT NULL; they hold a `farmer_details` id, a
   * `landlord_details` id and a `users` id.
   */
  datatype Space = Space(farmerId: nat, landlordId: nat, adminId: nat, description: Option<string>)

  /** `crops`: `space_id` may be NULL. */
  datatype Crop = Crop(cropName: string, duration: string, spaceId: Option<nat>)

  /** `proofs`: `crop_id` is NOT NULL. */
  datatype Proof = Proof(fileUrl: string, cropId: nat, stepIndex: int)

  /** The UNIQUE constraint on `users.email`. */
  ghost predicate EmailsUnique(users: seq<Row<User>>) {
    Pairwise(users, (a: Row<User>, b: Row<User>) => a.fields.email != b.fields.email)
  }

  /** `User.farmer_details` is one-to-one: no user has two farmer profiles. */
  ghost predicate OneFarmerPerUser(farmers: seq<Row<FarmerDetails>>) {
    Pairwise(farmers, (a: Row<FarmerDetails>, b: Row<FarmerDetails>) => a.fields.userId != b.fields.userId)
  }

  /** `User.landlord_details` is one-to-one: no user has two landlord profiles. */
  ghost predicate OneLandlordPerUser(landlords: seq<Row<LandlordDetails>>) {
    Pairwise(landlords, (a: Row<LandlordDetails>, b: Row<LandlordDetails>) => a.fields.userId != b.fields.userId)
  }

  /** Every profile belongs to a stored user. */
  ghost predicate ProfilesHaveUsers(users: seq<Row<User>>, farmers: seq<Row<FarmerDetails>>,
                                    landlords: seq<Row<LandlordDetails>>)
  {
    (forall i :: 0 <= i < |farmers| ==> HasId(users, farmers[i].fields.userId)) &&
    (forall i :: 0 <= i < |landlords| ==> HasId(users, landlords[i].fields.userId))
  }

  /** The admin of every space is a stored user. */
  ghost predicate SpacesHaveAdmins(users: seq<Row<User>>, spaces: seq<Row<Space>>) {
    forall i :: 0 <= i < |spaces| ==> HasId(users, spaces[i].fields.adminId)
  }

  /** Every crop placed in a space points at a stored space. */
  ghost predicate CropsHaveSpaces(crops: seq<Row<Crop>>, spaces: seq<Row<Space>>) {
    forall i :: 0 <= i < |crops| && crops[i].fields.spaceId.Some? ==>
      HasId(spaces, crops[i].fields.spaceId.value)
  }

  /** Every proof points at a stored crop. */
  ghost predicate ProofsHaveCrops(proofs: seq<Row<Proof>>, crops: seq<Row<Crop>>) {
    forall i :: 0 <= i < |proofs| ==> HasId(crops, proofs[i].fields.cropId)
  }

  /** A new crop whose space, if any, is stored keeps every crop and proof reference intact. */
  lemma InsertCropKeepsReferences(spaces: seq<Row<Space>>, crops: seq<Row<Crop>>, proofs: seq<Row<Proof>>, c: Crop)
    requires CropsHaveSpaces(crops, spaces) && ProofsHaveCrops(proofs, crops)
    requires c.spaceId.Some? ==> HasId(spaces, c.spaceId.value)
    ensures CropsHaveSpaces(Insert(crops, c), spaces) && ProofsHaveCrops(proofs, Insert(crops, c))
  {
    var grown := Insert(crops, c);
    assert forall i :: 0 <= i < |crops| ==> grown[i] == crops[i];
    forall i | 0 <= i < |proofs| ensures HasId(grown, proofs[i].fields.cropId) {
      InsertKeepsIds(crops, c, proofs[i].fields.cropId);
    }
  }

  /** A new space leaves every crop's space stored, so the references stay intact. */
  lemma InsertSpaceKeepsReferences(spaces: seq<Row<Space>>, crops: seq<Row<Crop>>, s: Space)
    requires CropsHaveSpaces(crops, spaces)
    ensures CropsHaveSpaces(crops, Insert(spaces, s))
  {
    forall i | 0 <= i < |crops| && crops[i].fields.spaceId.Some?
      ensures HasId(Insert(spaces, s), crops[i].fields.spaceId.value)
    {
      InsertKeepsIds(spaces, s, crops[i].fields.spaceId.value);
    }
  }

  /** A new proof of a stored crop keeps every proof reference intact. */
  lemma InsertProofKeepsReferences(crops: seq<Row<Crop>>, proofs: seq<Row<Proof>>, p: Proof)
    requires ProofsHaveCrops(proofs, crops) && HasId(crops, p.cropId)
    ensures ProofsHaveCrops(Insert(proofs, p), crops)
  {
    var grown := Insert(proofs, p);
    assert forall i :: 0 <= i < |proofs| ==> grown[i] == proofs[i];
  }

  /** The user with this email, if any (`filter(User.email == email).first()`). */
  function UserByEmail(users: seq<Row<User>>, email: string): (u: Option<Row<User>>)
    ensures u.Some? ==> u.value in users && u.value.fields.email == email
    ensures u.None? <==> forall i :: 0 <= i < |users| ==> users[i].fields.email != email
  {
    First(users, (r: Row<User>) => r.fields.email == email)
  }

  /** Under the unique constraint, the user found by email is the only one with it. */
  lemma UserByEmailUnique(users: seq<Row<User>>, email: string, k: nat)
    requires EmailsUnique(users)
    requires k < |users| && users[k].fields.email == email
    ensures UserByEmail(users, email) == Some(users[k])
  {
    var p := (r: Row<User>) => r.fields.email == email;
    assert p(users[k]);
    var j := FindFirst(users, p).value;
    assert p(users[j]);
  }

  /** The user with this primary key, if any (`filter(User.id == id).first()`). */
  function UserById(users: seq<Row<User>>, id: int): (u: Option<Row<User>>)
    ensures u.Some? ==> u.value in users && u.value.id == id
    ensures u.None? <==> !HasId(users, id)
  {
    First(users, (r: Row<User>) => r.id == id)
  }

  /** The farmer profile of a user, if any (`filter(FarmerDetails.user_id == id).first()`). */
  function FarmerOfUser(farmers: seq<Row<FarmerDetails>>, userId: int): (f: Option<Row<FarmerDetails>>)
    ensures f.Some? ==> f.value in farmers && f.value.fields.userId == userId
    ensures f.None? <==> forall i :: 0 <= i < |farmers| ==> farmers[i].fields.userId != userId
  {
    First(farmers, (r: Row<FarmerDetails>) => r.fields.userId == userId)
  }

  /** The landlord profile of a user, if any. */
  function LandlordOfUser(landlords: seq<Row<LandlordDetails>>, userId: int): (l: Option<Row<LandlordDetails>>)
    ensures l.Some? ==> l.value in landlords && l.value.fields.userId == userId
    ensures l.None? <==> forall i :: 0 <= i < |landlords| ==> landlords[i].fields.userId != userId
  {
    First(landlords, (r: Row<LandlordDetails>) => r.fields.userId == userId)
  }

  /** The ids of the crops in a space: what `Space.crops` loads. */
  function CropsOfSpace(crops: seq<Row<Crop>>, spaceId: nat): (ids: set<nat>)
    ensures forall i :: 0 <= i < |crops| ==> (crops[i].id in ids <== crops[i].fields.spaceId == Some(spaceId))
    ensures forall id :: id in ids ==> exists i :: 0 <= i < |crops| && crops[i].id == id && crops[i].fields.spaceId == Some(spaceId)
  {
    set i | 0 <= i < |crops| && crops[i].fields.spaceId == Some(spaceId) :: crops[i].id
  }

  /** The crops left after a space is deleted (`cascade="all, delete"` on `Space.crops`). */
  function CropsWithoutSpace(crops: seq<Row<Crop>>, spaceId: nat): (kept: seq<Row<Crop>>)
    ensures forall i :: 0 <= i < |kept| ==> kept[i] in crops && kept[i].fields.spaceId != Some(spaceId)
    ensures forall i :: 0 <= i < |crops| && crops[i].fields.spaceId != Some(spaceId) ==> crops[i] in kept
  {
    Where(crops, (c: Row<Crop>) => c.fields.spaceId != Some(spaceId))
  }

  /** The proofs left after the crops `cropIds` are deleted (`cascade="all, delete"` on `Crop.proofs`). */
  function ProofsWithoutCrops(proofs: seq<Row<Proof>>, cropIds: set<nat>): (kept: seq<Row<Proof>>)
    ensures forall i :: 0 <= i < |kept| ==> kept[i] in proofs && kept[i].fields.cropId !in cropIds
    ensures forall i :: 0 <= i < |proofs| && proofs[i].fields.cropId !in cropIds ==> proofs[i] in kept
  {
    Where(proofs, (p: Row<Proof>) => p.fields.cropId !in cropIds)
  }

  /**
   * The cascades keep the references intact: if every crop pointed at a
   * stored space and every proof at a stored crop, that stays so after the
   * space, its crops and their proofs are deleted.
   */
  lemma DeleteSpaceKeepsReferences(spaces: seq<Row<Space>>, crops: seq<Row<Crop>>, proofs: seq<Row<Proof>>, id: nat)
    requires CropsHaveSpaces(crops, spaces) && ProofsHaveCrops(proofs, crops)
    ensures CropsHaveSpaces(CropsWithoutSpace(crops, id), Delete(spaces, id))
    ensures ProofsHaveCrops(ProofsWithoutCrops(proofs, CropsOfSpace(crops, id)), CropsWithoutSpace(crops, id))
  {
    var crops' := CropsWithoutSpace(crops, id);
    var spaces' := Delete(spaces, id);
    var gone := CropsOfSpace(crops, id);
    var proofs' := ProofsWithoutCrops(proofs, gone);
    forall i | 0 <= i < |crops'| && crops'[i].fields.spaceId.Some?
      ensures HasId(spaces', crops'[i].fields.spaceId.value)
    {
      var c := crops'[i];
      var k :| 0 <= k < |crops| && crops[k] == c;
      var s :| 0 <= s < |spaces| && spaces[s].id == c.fields.spaceId.value;
      var m :| 0 <= m < |spaces'| && spaces'[m] == spaces[s];
    }
    forall i | 0 <= i < |proofs'| ensures HasId(crops', proofs'[i].fields.cropId) {
      var p := proofs'[i];
      var k :| 0 <= k < |proofs| && proofs[k] == p;
      var c :| 0 <= c < |crops| && crops[c].id == p.fields.cropId;
      assert crops[c].fields.spaceId != Some(id);
      var m :| 0 <= m < |crops'| && crops'[m] == crops[c];
    }
  }

  /** The proofs left after one crop is deleted. */
  lemma DeleteCropKeepsReferences(spaces: seq<Row<Space>>, crops: seq<Row<Crop>>, proofs: seq<Row<Proof>>, id: nat)
    requires CropsHaveSpaces(crops, spaces) && ProofsHaveCrops(proofs, crops)
    ensures CropsHaveSpaces(Delete(crops, id), spaces)
    ensures ProofsHaveCrops(ProofsWithoutCrops(proofs, {id}), Delete(crops, id))
  {
    var crops' := Delete(crops, id);
    var proofs' := ProofsWithoutCrops(proofs, {id});
    forall i | 0 <= i < |crops'| && crops'[i].fields.spaceId.Some?
      ensures HasId(spaces, crops'[i].fields.spaceId.value)
    {
      var k :| 0 <= k < |crops| && crops[k] == crops'[i];
    }
    forall i | 0 <= i < |proofs'| ensures HasId(crops', proofs'[i].fields.cropId) {
      var p := proofs'[i];
      var k :| 0 <= k < |proofs| && proofs[k] == p;
      var c :| 0 <= c < |crops| && crops[c].id == p.fields.cropId;
      var m :| 0 <= m < |crops'| && crops'[m] == crops[c];
    }
  }

  /** Registering an email no user has keeps emails unique. */
  lemma InsertUserKeepsEmailsUnique(users: seq<Row<User>>, u: User)
    requires EmailsUnique(users) && UserByEmail(users, u.email).None?
    ensures EmailsUnique(Insert(users, u))
  {
    InsertKeepsPairwise(users, u, (a: Row<User>, b: Row<User>) => a.fields.email != b.fields.email);
  }

  /** A farmer profile for a user without one keeps one profile per user. */
  lemma InsertFarmerKeepsOnePerUser(farmers: seq<Row<FarmerDetails>>, f: FarmerDetails)
    requires OneFarmerPerUser(farmers) && FarmerOfUser(farmers, f.userId).None?
    ensures OneFarmerPerUser(Insert(farmers, f))
  {
    InsertKeepsPairwise(farmers, f, (a: Row<FarmerDetails>, b: Row<FarmerDetails>) => a.fields.userId != b.fields.userId);
  }

  /** A landlord profile for a user without one keeps one profile per user. */
  lemma InsertLandlordKeepsOnePerUser(landlords: seq<Row<LandlordDetails>>, l: LandlordDetails)
    requires OneLandlordPerUser(landlords) && LandlordOfUser(landlords, l.userId).None?
    ensures OneLandlordPerUser(Insert(landlords, l))
  {
    InsertKeepsPairwise(landlords, l, (a: Row<LandlordDetails>, b: Row<LandlordDetails>) => a.fields.userId != b.fields.userId);
  }

  /** Deleting a farmer profile keeps one profile per user. */
  lemma DeleteFarmerKeepsOnePerUser(farmers: seq<Row<FarmerDetails>>, id: nat)
    requires OneFarmerPerUser(farmers)
    ensures OneFarmerPerUser(Delete(farmers, id))
  {
    WhereKeepsPairwise(farmers, (x: Row<FarmerDetails>) => x.id != id,
                       (a: Row<FarmerDetails>, b: Row<FarmerDetails>) => a.fields.userId != b.fields.userId);
  }

  /** Deleting a landlord profile keeps one profile per user. */
  lemma DeleteLandlordKeepsOnePerUser(landlords: seq<Row<LandlordDetails>>, id: nat)
    requires OneLandlordPerUser(landlords)
    ensures OneLandlordPerUser(Delete(landlords, id))
  {
    WhereKeepsPairwise(landlords, (x: Row<LandlordDetails>) => x.id != id,
                       (a: Row<LandlordDetails>, b: Row<LandlordDetails>) => a.fields.userId != b.fields.userId);
  }

  /** The cascades keep the rowid order of the crops and proofs tables. */
  lemma CascadeKeepsOrder(crops: seq<Row<Crop>>, proofs: seq<Row<Proof>>, spaceId: nat, cropIds: set<nat>)
    requires IdsIncreasing(crops) && IdsIncreasing(proofs)
    ensures IdsIncreasing(CropsWithoutSpace(crops, spaceId))
    ensures IdsIncreasing(ProofsWithoutCrops(proofs, cropIds))
  {
    WhereKeepsOrder(crops, (c: Row<Crop>) => c.fields.spaceId != Some(spaceId));
    WhereKeepsOrder(proofs, (p: Row<Proof>) => p.fields.cropId !in cropIds);
  }

  /** Deleting spaces leaves every remaining space with its admin. */
  lemma DeleteSpaceKeepsAdmins(users: seq<Row<User>>, spaces: seq<Row<Space>>, id: nat)
    requires SpacesHaveAdmins(users, spaces)
    ensures SpacesHaveAdmins(users, Delete(spaces, id))
  {
    var r := Delete(spaces, id);
    forall i | 0 <= i < |r| ensures HasId(users, r[i].fields.adminId) {
      var k :| 0 <= k < |spaces| && spaces[k] == r[i];
    }
  }

  /** Deleting profiles leaves every remaining profile with its user. */
  lemma DeleteProfileKeepsUsers(users: seq<Row<User>>, farmers: seq<Row<FarmerDetails>>,
                                landlords: seq<Row<LandlordDetails>>, farmerId: Option<nat>, landlordId: Option<nat>)
    requires ProfilesHaveUsers(users, farmers, landlords)
    ensures var farmers' := if farmerId.Some? then Delete(farmers, farmerId.value) else farmers;
            var landlords' := if landlordId.Some? then Delete(landlords, landlordId.value) else landlords;
            ProfilesHaveUsers(users, farmers', landlords')
  {
    var farmers' := if farmerId.Some? then Delete(farmers, farmerId.value) else farmers;
    var landlords' := if landlordId.Some? then Delete(landlords, landlordId.value) else landlords;
    forall i | 0 <= i < |farmers'| ensures HasId(users, farmers'[i].fields.userId) {
      var k :| 0 <= k < |farmers| && farmers[k] == farmers'[i];
    }
    forall i | 0 <= i < |landlords'| ensures HasId(users, landlords'[i].fields.userId) {
      var k :| 0 <= k < |landlords| && landlords[k] == landlords'[i];
    }
  }

  /** A new user leaves every profile and every space with its user. */
  lemma InsertUserKeepsReferences(users: seq<Row<User>>, u: User, farmers: seq<Row<FarmerDetails>>,
                                  landlords: seq<Row<LandlordDetails>>, spaces: seq<Row<Space>>)
    requires ProfilesHaveUsers(users, farmers, landlords) && SpacesHaveAdmins(users, spaces)
    ensures ProfilesHaveUsers(Insert(users, u), farmers, landlords) && SpacesHaveAdmins(Insert(users, u), spaces)
  {
    forall i | 0 <= i < |farmers| ensures HasId(Insert(users, u), farmers[i].fields.userId) {
      InsertKeepsIds(users, u, farmers[i].fields.userId);
    }
    forall i | 0 <= i < |landlords| ensures HasId(Insert(users, u), landlords[i].fields.userId) {
      InsertKeepsIds(users, u, landlords[i].fields.userId);
    }
    forall i | 0 <= i < |spaces| ensures HasId(Insert(users, u), spaces[i].fields.adminId) {
      InsertKeepsIds(users, u, spaces[i].fields.adminId);
    }
  }

  /** A new profile of a stored user keeps every profile with its user. */
  lemma InsertProfileKeepsUsers(users: seq<Row<User>>, farmers: seq<Row<FarmerDetails>>,
                                landlords: seq<Row<LandlordDetails>>, f: Option<FarmerDetails>, l: Option<LandlordDetails>)
    requires ProfilesHaveUsers(users, farmers, landlords)
    requires f.Some? ==> HasId(users, f.value.userId)
    requires l.Some? ==> HasId(users, l.value.userId)
    ensures var farmers' := if f.Some? then Insert(farmers, f.value) else farmers;
            var landlords' := if l.Some? then Insert(landlords, l.value) else landlords;
            ProfilesHaveUsers(users, farmers', landlords')
  {
    var farmers' := if f.Some? then Insert(farmers, f.value) else farmers;
    var landlords' := if l.Some? then Insert(landlords, l.value) else landlords;
    forall i | 0 <= i < |farmers'| ensures HasId(users, farmers'[i].fields.userId) {
      if i < |farmers| { assert farmers'[i] == farmers[i]; }
    }
    forall i | 0 <= i < |landlords'| ensures HasId(users, landlords'[i].fields.userId) {
      if i < |landlords| { assert landlords'[i] == landlords[i]; }
    }
  }

  /** A new space made by a stored user keeps every space with its admin. */
  lemma InsertSpaceKeepsAdmins(users: seq<Row<User>>, spaces: seq<Row<Space>>, s: Space)
    requires SpacesHaveAdmins(users, spaces) && HasId(users, s.adminId)
    ensures SpacesHaveAdmins(users, Insert(spaces, s))
  {
    var spaces' := Insert(spaces, s);
    forall i | 0 <= i < |spaces'| ensures HasId(users, spaces'[i].fields.adminId) {
      if i < |spaces| { assert spaces'[i] == spaces[i]; }
    }
  }

  /** Rewriting the columns of one profile, its user kept, leaves every row's user as it was. */
  lemma UpdateKeepsUserOfEachFarmer(farmers: seq<Row<FarmerDetails>>, k: nat, f: FarmerDetails)
    requires k < |farmers| && IdsIncreasing(farmers) && f.userId == farmers[k].fields.userId
    ensures forall i :: 0 <= i < |farmers| ==>
              Update(farmers, farmers[k].id, f)[i].fields.userId == farmers[i].fields.userId
  {
    forall i | 0 <= i < |farmers|
      ensures Update(farmers, farmers[k].id, f)[i].fields.userId == farmers[i].fields.userId
    {
      SameIdSameRow(farmers, i, k);
    }
  }

  /** An update that keeps the profile's user keeps one farmer profile per user, each with its user. */
  lemma UpdateFarmerKeepsLinks(users: seq<Row<User>>, farmers: seq<Row<FarmerDetails>>,
                               landlords: seq<Row<LandlordDetails>>, k: nat, f: FarmerDetails)
    requires k < |farmers| && IdsIncreasing(farmers) && f.userId == farmers[k].fields.userId
    requires OneFarmerPerUser(farmers) && ProfilesHaveUsers(users, farmers, landlords)
    ensures OneFarmerPerUser(Update(farmers, farmers[k].id, f))
    ensures ProfilesHaveUsers(users, Update(farmers, farmers[k].id, f), landlords)
  {
    var r := Update(farmers, farmers[k].id, f);
    UpdateKeepsUserOfEachFarmer(farmers, k, f);
    forall i, j | 0 <= i < j < |r| ensures r[i].fields.userId != r[j].fields.userId {
      assert farmers[i].fields.userId != farmers[j].fields.userId;
    }
    forall i | 0 <= i < |r| ensures HasId(users, r[i].fields.userId) {
      assert HasId(users, farmers[i].fields.userId);
    }
  }

  lemma UpdateKeepsUserOfEachLandlord(landlords: seq<Row<LandlordDetails>>, k: nat, l: LandlordDetails)
    requires k < |landlords| && IdsIncreasing(landlords) && l.userId == landlords[k].fields.userId
    ensures forall i :: 0 <= i < |landlords| ==>
              Update(landlords, landlords[k].id, l)[i].fields.userId == landlords[i].fields.userId
  {
    forall i | 0 <= i < |landlords|
      ensures Update(landlords, landlords[k].id, l)[i].fields.userId == landlords[i].fields.userId
    {
      SameIdSameRow(landlords, i, k);
    }
  }

  /** The landlord counterpart of UpdateFarmerKeepsLinks. */
  lemma UpdateLandlordKeepsLinks(users: seq<Row<User>>, farmers: seq<Row<FarmerDetails>>,
                                 landlords: seq<Row<LandlordDetails>>, k: nat, l: LandlordDetails)
    requires k < |landlords| && IdsIncreasing(landlords) && l.userId == landlords[k].fields.userId
    requires OneLandlordPerUser(landlords) && ProfilesHaveUsers(users, farmers, landlords)
    ensures OneLandlordPerUser(Update(landlords, landlords[k].id, l))
    ensures ProfilesHaveUsers(users, farmers, Update(landlords, landlords[k].id, l))
  {
    var r := Update(landlords, landlords[k].id, l);
    UpdateKeepsUserOfEachLandlord(landlords, k, l);
    forall i, j | 0 <= i < j < |r| ensures r[i].fields.userId != r[j].fields.userId {
      assert landlords[i].fields.userId != landlords[j].fields.userId;
    }
    forall i | 0 <= i < |r| ensures HasId(users, r[i].fields.userId) {
      assert HasId(users, landlords[i].fields.userId);
    }
  }
}
