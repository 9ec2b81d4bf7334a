// The database session of db.py as one object whose tables change in place:
// `db.add` + `db.commit` appends a row under the next key, `db.delete` +
// `db.commit` removes a row together with what its relationships cascade to,
// and assigning columns of a loaded row + `db.commit` rewrites that row.

module Database {
  import opened Wrappers
  import opened Tables
  import opened Schema

  class Store {
    var users: seq<Row<User>>
    var farmers: seq<Row<FarmerDetails>>
    var landlords: seq<Row<LandlordDetails>>
    var spaces: seq<Row<Space>>
    var crops: seq<Row<Crop>>
    var proofs: seq<Row<Proof>>

    /** What SQLite itself enforces: primary keys in rowid order and the unique email. */
    ghost predicate Valid()
      reads this
    {
      IdsIncreasing(users) && IdsIncreasing(farmers) && IdsIncreasing(landlords) &&
      IdsIncreasing(spaces) && IdsIncreasing(crops) && IdsIncreasing(proofs) &&
      EmailsUnique(users)
    }

    /**
     * What the route handlers keep on top of that: one profile of each kind
     * per user, every profile belongs to a user, every space to an admin
     * that is a user.
     */
    ghost predicate Consistent()
      reads this
    {
      Valid() && OneFarmerPerUser(farmers) && OneLandlordPerUser(landlords) &&
      ProfilesHaveUsers(users, farmers, landlords) && SpacesHaveAdmins(users, spaces)
    }

    /** Crops point at stored spaces and proofs at stored crops. */
    ghost predicate ReferencesIntact()
      reads this
    {
      CropsHaveSpaces(crops, spaces) && ProofsHaveCrops(proofs, crops)
    }

    /** `Base.metadata.create_all`: every table empty. */
    constructor ()
      ensures Consistent() && ReferencesIntact()
      ensures users == [] && farmers == [] && landlords == []
      ensures spaces == [] && crops == [] && proofs == []
    {
      users, farmers, landlords := [], [], [];
      spaces, crops, proofs := [], [], [];
    }

    /**
     * Insert a user. A second row with a stored email violates the UNIQUE
     * constraint: the commit fails and nothing is stored.
     */
    method AddUser(u: User) returns (id: Option<nat>)
      requires Valid()
      modifies this`users
      ensures Valid()
      ensures id.None? <==> old(UserByEmail(users, u.email)).Some?
      ensures id.None? ==> users == old(users)
      ensures id.Some? ==> id.value == NextId(old(users)) && users == Insert(old(users), u)
      ensures old(Consistent()) ==> Consistent()
    {
      if UserByEmail(users, u.email).Some? {
        return None;
      }
      ghost var users0 := users;
      ghost var consistent := Consistent();
      InsertKeepsOrder(users, u);
      InsertUserKeepsEmailsUnique(users, u);
      id := Some(NextId(users));
      users := Insert(users, u);
      if consistent {
        InsertUserKeepsReferences(users0, u, farmers, landlords, spaces);
      }
    }

    /** Insert a farmer profile; for a stored user without one, the store stays consistent. */
    method AddFarmer(f: FarmerDetails) returns (id: nat)
      requires Valid()
      modifies this`farmers
      ensures Valid()
      ensures id == NextId(old(farmers)) && farmers == Insert(old(farmers), f)
      ensures old(Consistent()) && HasId(users, f.userId) && FarmerOfUser(old(farmers), f.userId).None? ==>
                Consistent()
    {
      ghost var farmers0 := farmers;
      ghost var consistent := Consistent() && HasId(users, f.userId) && FarmerOfUser(farmers, f.userId).None?;
      InsertKeepsOrder(farmers, f);
      id := NextId(farmers);
      farmers := Insert(farmers, f);
      if consistent {
        InsertFarmerKeepsOnePerUser(farmers0, f);
        InsertProfileKeepsUsers(users, farmers0, landlords, Some(f), None);
      }
    }

    /** Insert a landlord profile; for a stored user without one, the store stays consistent. */
    method AddLandlord(l: LandlordDetails) returns (id: nat)
      requires Valid()
      modifies this`landlords
      ensures Valid()
      ensures id == NextId(old(landlords)) && landlords == Insert(old(landlords), l)
      ensures old(Consistent()) && HasId(users, l.userId) && LandlordOfUser(old(landlords), l.userId).None? ==>
                Consistent()
    {
      ghost var landlords0 := landlords;
      ghost var consistent := Consistent() && HasId(users, l.userId) && LandlordOfUser(landlords, l.userId).None?;
      InsertKeepsOrder(landlords, l);
      id := NextId(landlords);
      landlords := Insert(landlords, l);
      if consistent {
        InsertLandlordKeepsOnePerUser(landlords0, l);
        InsertProfileKeepsUsers(users, farmers, landlords0, None, Some(l));
      }
    }

    /** Insert a space; one whose admin is a stored user keeps the store consistent. */
    method AddSpace(s: Space) returns (id: nat)
      requires Valid()
      modifies this`spaces
      ensures Valid()
      ensures id == NextId(old(spaces)) && spaces == Insert(old(spaces), s)
      ensures old(Consistent()) && HasId(users, s.adminId) ==> Consistent()
      ensures old(ReferencesIntact()) ==> ReferencesIntact()
    {
      ghost var spaces0 := spaces;
      ghost var consistent := Consistent() && HasId(users, s.adminId);
      if ReferencesIntact() {
        InsertSpaceKeepsReferences(spaces, crops, s);
      }
      InsertKeepsOrder(spaces, s);
      id := NextId(spaces);
      spaces := Insert(spaces, s);
      if consistent {
        InsertSpaceKeepsAdmins(users, spaces0, s);
      }
    }

    method AddCrop(c: Crop) returns (id: nat)
      requires Valid()
      modifies this`crops
      ensures Valid()
      ensures id == NextId(old(crops)) && crops == Insert(old(crops), c)
      ensures old(ReferencesIntact()) && (c.spaceId.Some? ==> HasId(spaces, c.spaceId.value)) ==> ReferencesIntact()
    {
      if ReferencesIntact() && (c.spaceId.Some? ==> HasId(spaces, c.spaceId.value)) {
        InsertCropKeepsReferences(spaces, crops, proofs, c);
      }
      InsertKeepsOrder(crops, c);
      id := NextId(crops);
      crops := Insert(crops, c);
    }

    method AddProof(p: Proof) returns (id: nat)
      requires Valid()
      modifies this`proofs
      ensures Valid()
      ensures id == NextId(old(proofs)) && proofs == Insert(old(proofs), p)
      ensures old(ReferencesIntact()) && HasId(crops, p.cropId) ==> ReferencesIntact()
    {
      if ReferencesIntact() && HasId(crops, p.cropId) {
        InsertProofKeepsReferences(crops, proofs, p);
      }
      InsertKeepsOrder(proofs, p);
      id := NextId(proofs);
      proofs := Insert(proofs, p);
    }

    /**
     * Delete a space. `Space.crops` cascades to the space's crops and
     * `Crop.proofs` from there to their proofs.
     */
    method DeleteSpace(id: nat)
      requires Valid()
      modifies this`spaces, this`crops, this`proofs
      ensures Valid()
      ensures spaces == Delete(old(spaces), id)
      ensures crops == CropsWithoutSpace(old(crops), id)
      ensures proofs == ProofsWithoutCrops(old(proofs), CropsOfSpace(old(crops), id))
      ensures old(Consistent()) ==> Consistent()
      ensures old(ReferencesIntact()) ==> ReferencesIntact()
    {
      ghost var spaces0, crops0, proofs0 := spaces, crops, proofs;
      ghost var intact := ReferencesIntact();
      ghost var consistent := Consistent();
      var gone := CropsOfSpace(crops, id);
      DeleteKeepsOrder(spaces, id);
      CascadeKeepsOrder(crops, proofs, id, gone);
      spaces := Delete(spaces, id);
      crops := CropsWithoutSpace(crops, id);
      proofs := ProofsWithoutCrops(proofs, gone);
      if intact {
        DeleteSpaceKeepsReferences(spaces0, crops0, proofs0, id);
      }
      if consistent {
        DeleteSpaceKeepsAdmins(users, spaces0, id);
      }
    }

    /** Delete a crop; `Crop.proofs` cascades to its proofs. */
    method DeleteCrop(id: nat)
      requires Valid()
      modifies this`crops, this`proofs
      ensures Valid()
      ensures crops == Delete(old(crops), id)
      ensures proofs == ProofsWithoutCrops(old(proofs), {id})
      ensures old(ReferencesIntact()) ==> ReferencesIntact()
    {
      if ReferencesIntact() {
        DeleteCropKeepsReferences(spaces, crops, proofs, id);
      }
      DeleteKeepsOrder(crops, id);
      CascadeKeepsOrder(crops, proofs, 0, {id});
      crops := Delete(crops, id);
      proofs := ProofsWithoutCrops(proofs, {id});
    }

    /**
     * Delete a farmer profile. No relationship cascades from it, so spaces
     * that name it keep its id.
     */
    method DeleteFarmer(id: nat)
      requires Valid()
      modifies this`farmers
      ensures Valid()
      ensures farmers == Delete(old(farmers), id)
      ensures old(Consistent()) ==> Consistent()
    {
      if Consistent() {
        DeleteFarmerKeepsOnePerUser(farmers, id);
        DeleteProfileKeepsUsers(users, farmers, landlords, Some(id), None);
      }
      DeleteKeepsOrder(farmers, id);
      farmers := Delete(farmers, id);
    }

    /** Delete a landlord profile; as for farmers, spaces keep its id. */
    method DeleteLandlord(id: nat)
      requires Valid()
      modifies this`landlords
      ensures Valid()
      ensures landlords == Delete(old(landlords), id)
      ensures old(Consistent()) ==> Consistent()
    {
      if Consistent() {
        DeleteLandlordKeepsOnePerUser(landlords, id);
        DeleteProfileKeepsUsers(users, farmers, landlords, None, Some(id));
      }
      DeleteKeepsOrder(landlords, id);
      landlords := Delete(landlords, id);
    }

    /**
     * Rewrite the columns of the stored farmer profile with key `id`. The
     * profile stays with its user.
     */
    method UpdateFarmer(id: nat, f: FarmerDetails)
      requires Valid() && HasId(farmers, id)
      requires forall i :: 0 <= i < |farmers| && farmers[i].id == id ==> farmers[i].fields.userId == f.userId
      modifies this`farmers
      ensures Valid()
      ensures farmers == Update(old(farmers), id, f)
      ensures old(Consistent()) ==> Consistent()
    {
      ghost var farmers0 := farmers;
      ghost var consistent := Consistent();
      farmers := Update(farmers, id, f);
      if consistent {
        var k :| 0 <= k < |farmers0| && farmers0[k].id == id;
        UpdateFarmerKeepsLinks(users, farmers0, landlords, k, f);
      }
    }

    /** Rewrite the columns of the stored landlord profile with key `id`; it stays with its user. */
    method UpdateLandlord(id: nat, l: LandlordDetails)
      requires Valid() && HasId(landlords, id)
      requires forall i :: 0 <= i < |landlords| && landlords[i].id == id ==> landlords[i].fields.userId == l.userId
      modifies this`landlords
      ensures Valid()
      ensures landlords == Update(old(landlords), id, l)
      ensures old(Consistent()) ==> Consistent()
    {
      ghost var landlords0 := landlords;
      ghost var consistent := Consistent();
      landlords := Update(landlords, id, l);
      if consistent {
        var k :| 0 <= k < |landlords0| && landlords0[k].id == id;
        UpdateLandlordKeepsLinks(users, farmers, landlords0, k, l);
      }
    }
  }
}
