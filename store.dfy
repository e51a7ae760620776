/**
 * The two MongoDB collections the backend keeps (backend/index.js), the
 * invariants that tie them together, and the effect each mutating handler
 * has on them once its checks have passed.
 */
module Store {
  import opened Seqs
  import opened Schema

  /** The `users` and `pets` collections, keyed by ObjectId. */
  datatype Db = Db(users: map<Id, User>, pets: map<Id, Pet>)

  // ------------------------------------------------------------ invariants

  /** Every pet's owner exists and lists that pet exactly once. */
  ghost predicate OwnersListPets(db: Db) {
    forall p :: p in db.pets ==>
      db.pets[p].owner in db.users && Count(db.users[db.pets[p].owner].pets, p) == 1
  }

  /** In a consistent store every pet's `owner` names a stored user. */
  lemma OwnersExist(db: Db)
    requires Consistent(db)
    ensures forall p :: p in db.pets ==> db.pets[p].owner in db.users
  {
    assert OwnersListPets(db);
  }

  /** Every id in a user's `pets` names a pet owned by that user. */
  ghost predicate ListedPetsOwned(db: Db) {
    forall u, i :: u in db.users && 0 <= i < |db.users[u].pets| ==>
      db.users[u].pets[i] in db.pets && db.pets[db.users[u].pets[i]].owner == u
  }

  /** Email and contact are unique across users. */
  ghost predicate Unique(db: Db) {
    forall u, v :: u in db.users && v in db.users && u != v ==>
      db.users[u].email != db.users[v].email && db.users[u].contact != db.users[v].contact
  }

  /** Every saved user document passed the user schema's setters and validators. */
  ghost predicate UsersWellFormed(users: map<Id, User>) {
    forall u {:trigger UserWellFormed(users[u])} :: u in users ==> UserWellFormed(users[u])
  }

  /** Every saved pet document passed the pet schema's setters and validators. */
  ghost predicate PetsWellFormed(pets: map<Id, Pet>) {
    forall p {:trigger PetWellFormed(pets[p])} :: p in pets ==> PetWellFormed(pets[p])
  }

  ghost predicate Consistent(db: Db) {
    OwnersListPets(db) && ListedPetsOwned(db) && Unique(db) &&
    UsersWellFormed(db.users) && PetsWellFormed(db.pets)
  }

  /** `r` holds the same users as `db` with the same profiles; only pet lists may differ. */
  ghost predicate SameProfiles(db: Db, r: Db) {
    r.users.Keys == db.users.Keys &&
    forall u :: u in db.users ==> r.users[u] == db.users[u].(pets := r.users[u].pets)
  }

  // --------------------------------------------------------------- queries

  /** `users.findOne({email})` finds a document. */
  predicate EmailTaken(users: map<Id, User>, email: string) {
    exists u :: u in users && users[u].email == email
  }

  /** `users.findOne({contact})` finds a document. */
  predicate ContactTaken(users: map<Id, User>, contact: string) {
    exists u :: u in users && users[u].contact == contact
  }

  /** `users.findOne({_id: {$ne: self}, $or: [{email}, {contact}]})` finds a document. */
  predicate TakenByOther(users: map<Id, User>, self: Id, email: string, contact: string) {
    exists u :: u in users && u != self && (users[u].email == email || users[u].contact == contact)
  }

  /** The ids `pets.find({owner})` returns. */
  ghost function OwnedBy(db: Db, owner: Id): set<Id> {
    set p | p in db.pets && db.pets[p].owner == owner
  }

  /** The photo filenames of the pets `pets.find({owner})` returns. */
  ghost function PhotosOf(db: Db, owner: Id): set<string> {
    set p | p in db.pets && db.pets[p].owner == owner :: db.pets[p].photo
  }

  /** `pets.find({owner})` mapped to each pet's photo, keyed by pet. */
  function PhotoMap(db: Db, owner: Id): (m: map<Id, string>)
    ensures m.Keys == OwnedBy(db, owner)
    ensures m.Values == PhotosOf(db, owner)
  {
    var m := map p | p in db.pets && db.pets[p].owner == owner :: db.pets[p].photo;
    PhotoMapValues(db, owner, m);
    m
  }

  lemma PhotoMapValues(db: Db, owner: Id, m: map<Id, string>)
    requires m == map p | p in db.pets && db.pets[p].owner == owner :: db.pets[p].photo
    ensures m.Values == PhotosOf(db, owner)
  {
    forall x | x in m.Values ensures x in PhotosOf(db, owner) {
      var p :| p in m && m[p] == x;
    }
    forall x | x in PhotosOf(db, owner) ensures x in m.Values {
      var p :| p in db.pets && db.pets[p].owner == owner && db.pets[p].photo == x;
      assert m[p] == x;
    }
  }

  /** In a consistent store, the pets a user owns are exactly the ids in that user's list. */
  lemma OwnedIffListed(db: Db, owner: Id)
    requires Consistent(db) && owner in db.users
    ensures OwnedBy(db, owner) == set p | p in db.users[owner].pets
  {
    forall p | p in OwnedBy(db, owner) ensures p in db.users[owner].pets {
      CountZero(db.users[owner].pets, p);
    }
  }

  // --------------------------------------------------------------- effects

  /** `users.create(u)` under the fresh id `id`. */
  function InsertUser(db: Db, id: Id, u: User): Db {
    db.(users := db.users[id := u])
  }

  /** `pets.create(pet)` under `id`, then the owner's list replaced by its copy with `id` appended. */
  function AddPet(db: Db, id: Id, pet: Pet): Db
    requires pet.owner in db.users
  {
    var o := db.users[pet.owner];
    Db(db.users[pet.owner := o.(pets := o.pets + [id])], db.pets[id := pet])
  }

  /** Adding a pet stores it under `id` and appends `id` to its owner's list; nothing else changes. */
  lemma AddPetEffect(db: Db, id: Id, pet: Pet)
    requires pet.owner in db.users
    ensures var r := AddPet(db, id, pet);
      && r.users.Keys == db.users.Keys
      && (forall u :: u in db.users && u != pet.owner ==> r.users[u] == db.users[u])
      && r.users[pet.owner].pets == db.users[pet.owner].pets + [id]
      && r.users[pet.owner] == db.users[pet.owner].(pets := r.users[pet.owner].pets)
      && r.pets.Keys == db.pets.Keys + {id} && r.pets[id] == pet
      && (forall p :: p in db.pets && p != id ==> r.pets[p] == db.pets[p])
  {
  }

  /** The owner's list filtered by `pet != id`, then `pets.findByIdAndDelete(id)`. */
  function RemovePet(db: Db, pid: Id): Db
    requires pid in db.pets && db.pets[pid].owner in db.users
  {
    var owner := db.pets[pid].owner;
    var o := db.users[owner];
    Db(db.users[owner := o.(pets := Without(o.pets, pid))], db.pets - {pid})
  }

  /**
   * Removing a pet takes it out of the collection and out of its owner's
   * list, keeping the order of that list; nothing else changes.
   */
  lemma RemovePetEffect(db: Db, pid: Id)
    requires pid in db.pets && db.pets[pid].owner in db.users
    ensures var r := RemovePet(db, pid); var owner := db.pets[pid].owner;
      && r.users.Keys == db.users.Keys
      && (forall u :: u in db.users && u != owner ==> r.users[u] == db.users[u])
      && pid !in r.users[owner].pets
      && (forall x :: x in r.users[owner].pets <==> x in db.users[owner].pets && x != pid)
      && IsSubsequence(r.users[owner].pets, db.users[owner].pets)
      && r.users[owner] == db.users[owner].(pets := r.users[owner].pets)
      && (forall p :: p in r.pets <==> p in db.pets && p != pid)
      && (forall p :: p in r.pets ==> r.pets[p] == db.pets[p])
  {
  }

  /**
   * `deletepet` as written. `findById` and `findByIdAndDelete` cast the
   * route parameter to an ObjectId, which accepts its hex digits in either
   * case, but the owner's list is filtered with `pet != id`, which compares
   * each stored id's lower-case hex text with the parameter as typed.
   * `canonical` says whether the parameter is that lower-case text; when it
   * is not, the filter keeps every id, the deleted pet's included.
   */
  function RemovePetAsWritten(db: Db, pid: Id, canonical: bool): Db
    requires pid in db.pets && db.pets[pid].owner in db.users
  {
    var owner := db.pets[pid].owner;
    var o := db.users[owner];
    var kept := if canonical then Without(o.pets, pid) else o.pets;
    Db(db.users[owner := o.(pets := kept)], db.pets - {pid})
  }

  /** Spelled canonically, the handler as written is `RemovePet`. */
  lemma CanonicalDeleteIsRemovePet(db: Db, pid: Id)
    requires pid in db.pets && db.pets[pid].owner in db.users
    ensures RemovePetAsWritten(db, pid, true) == RemovePet(db, pid)
  {
  }

  /**
   * Spelled with an upper-case hex digit, the pet is deleted while its
   * owner still lists it, so a consistent store stops being consistent.
   */
  lemma NonCanonicalDeleteDangles(db: Db, pid: Id)
    requires Consistent(db) && pid in db.pets && db.pets[pid].owner in db.users
    ensures var r := RemovePetAsWritten(db, pid, false);
      && pid !in r.pets
      && pid in r.users[db.pets[pid].owner].pets
      && !ListedPetsOwned(r)
      && !Consistent(r)
  {
    var owner := db.pets[pid].owner;
    var r := RemovePetAsWritten(db, pid, false);
    assert OwnersListPets(db);
    CountZero(db.users[owner].pets, pid);
    var i :| 0 <= i < |r.users[owner].pets| && r.users[owner].pets[i] == pid;
    assert !ListedPetsOwned(r);
  }

  /** `pets.deleteMany({owner: uid})` then `users.findByIdAndDelete(uid)`. */
  function RemoveUser(db: Db, uid: Id): Db {
    Db(db.users - {uid}, map p | p in db.pets && db.pets[p].owner != uid :: db.pets[p])
  }

  /** Removing a user removes exactly that user and exactly the pets it owns; the rest is unchanged. */
  lemma RemoveUserEffect(db: Db, uid: Id)
    ensures var r := RemoveUser(db, uid);
      && (forall p :: p in r.pets <==> p in db.pets && db.pets[p].owner != uid)
      && (forall p :: p in r.pets ==> r.pets[p] == db.pets[p])
      && (forall u :: u in r.users <==> u in db.users && u != uid)
      && (forall u :: u in r.users ==> r.users[u] == db.users[u])
  {
  }

  /** `users.findByIdAndUpdate(uid, ...)` with the new document `u`. */
  function UpdateUser(db: Db, uid: Id, u: User): Db {
    db.(users := db.users[uid := u])
  }

  // ------------------------------------------------------------ preservation

  /** Changing only pet lists keeps profiles unique and well formed. */
  lemma SameProfilesPreserve(db: Db, r: Db)
    requires SameProfiles(db, r) && Unique(db) && UsersWellFormed(db.users)
    ensures Unique(r) && UsersWellFormed(r.users)
  {
    forall u | u in r.users ensures UserWellFormed(r.users[u]) {
      assert UserWellFormed(db.users[u]);
    }
  }

  /** Storing a well-formed document keeps every stored document well formed. */
  lemma UsersWellFormedUpdate(users: map<Id, User>, id: Id, u: User)
    requires UsersWellFormed(users) && UserWellFormed(u)
    ensures UsersWellFormed(users[id := u])
  {
  }

  lemma PetsWellFormedUpdate(pets: map<Id, Pet>, id: Id, pet: Pet)
    requires PetsWellFormed(pets) && PetWellFormed(pet)
    ensures PetsWellFormed(pets[id := pet])
  {
  }

  lemma InsertUserBackRefs(db: Db, id: Id, u: User)
    requires OwnersListPets(db) && ListedPetsOwned(db) && id !in db.users && u.pets == []
    ensures OwnersListPets(InsertUser(db, id, u)) && ListedPetsOwned(InsertUser(db, id, u))
  {
    var r := InsertUser(db, id, u);
    forall p | p in r.pets ensures r.pets[p].owner != id { }
  }

  lemma InsertUserUnique(db: Db, id: Id, u: User)
    requires Unique(db) && id !in db.users
    requires !EmailTaken(db.users, u.email) && !ContactTaken(db.users, u.contact)
    ensures Unique(InsertUser(db, id, u))
  {
  }

  lemma InsertUserPreserves(db: Db, id: Id, u: User)
    requires Consistent(db) && id !in db.users
    requires UserWellFormed(u) && u.pets == []
    requires !EmailTaken(db.users, u.email) && !ContactTaken(db.users, u.contact)
    ensures Consistent(InsertUser(db, id, u))
  {
    InsertUserBackRefs(db, id, u);
    InsertUserUnique(db, id, u);
    UsersWellFormedUpdate(db.users, id, u);
  }

  lemma AddPetOwnersListPets(db: Db, id: Id, pet: Pet)
    requires OwnersListPets(db) && ListedPetsOwned(db) && id !in db.pets && pet.owner in db.users
    ensures OwnersListPets(AddPet(db, id, pet))
  {
    var r := AddPet(db, id, pet);
    AddPetEffect(db, id, pet);
    var list := db.users[pet.owner].pets;
    assert id !in list;
    CountZero(list, id);
    forall p | p in r.pets
      ensures r.pets[p].owner in r.users && Count(r.users[r.pets[p].owner].pets, p) == 1
    {
      if r.pets[p].owner == pet.owner {
        CountAppend(list, id, p);
      }
    }
  }

  lemma AddPetListedPetsOwned(db: Db, id: Id, pet: Pet)
    requires ListedPetsOwned(db) && id !in db.pets && pet.owner in db.users
    ensures ListedPetsOwned(AddPet(db, id, pet))
  {
    var r := AddPet(db, id, pet);
    AddPetEffect(db, id, pet);
    var list := db.users[pet.owner].pets;
    forall u, i | u in r.users && 0 <= i < |r.users[u].pets|
      ensures r.users[u].pets[i] in r.pets && r.pets[r.users[u].pets[i]].owner == u
    {
      if u == pet.owner && i < |list| {
        assert r.users[u].pets[i] == list[i];
      }
    }
  }

  lemma AddPetSameProfiles(db: Db, id: Id, pet: Pet)
    requires pet.owner in db.users
    ensures SameProfiles(db, AddPet(db, id, pet))
  {
    AddPetEffect(db, id, pet);
  }

  lemma AddPetPreserves(db: Db, id: Id, pet: Pet)
    requires Consistent(db) && id !in db.pets
    requires pet.owner in db.users && PetWellFormed(pet)
    ensures Consistent(AddPet(db, id, pet))
  {
    AddPetOwnersListPets(db, id, pet);
    AddPetListedPetsOwned(db, id, pet);
    AddPetSameProfiles(db, id, pet);
    SameProfilesPreserve(db, AddPet(db, id, pet));
    PetsWellFormedUpdate(db.pets, id, pet);
  }

  lemma RemovePetOwnersListPets(db: Db, pid: Id)
    requires OwnersListPets(db) && pid in db.pets
    ensures OwnersListPets(RemovePet(db, pid))
  {
    var r := RemovePet(db, pid);
    RemovePetEffect(db, pid);
    var owner := db.pets[pid].owner;
    var list := db.users[owner].pets;
    forall p | p in r.pets
      ensures r.pets[p].owner in r.users && Count(r.users[r.pets[p].owner].pets, p) == 1
    {
      if r.pets[p].owner == owner {
        CountWithout(list, pid, p);
      }
    }
  }

  lemma RemovePetListedPetsOwned(db: Db, pid: Id)
    requires ListedPetsOwned(db) && pid in db.pets && db.pets[pid].owner in db.users
    ensures ListedPetsOwned(RemovePet(db, pid))
  {
    var r := RemovePet(db, pid);
    RemovePetEffect(db, pid);
    var owner := db.pets[pid].owner;
    var list := db.users[owner].pets;
    forall u, i | u in r.users && 0 <= i < |r.users[u].pets|
      ensures r.users[u].pets[i] in r.pets && r.pets[r.users[u].pets[i]].owner == u
    {
      var x := r.users[u].pets[i];
      if u == owner {
        assert x in list && x != pid;
        var j :| 0 <= j < |list| && list[j] == x;
      }
    }
  }

  lemma RemovePetPreserves(db: Db, pid: Id)
    requires Consistent(db) && pid in db.pets
    ensures db.pets[pid].owner in db.users
    ensures Consistent(RemovePet(db, pid))
  {
    RemovePetOwnersListPets(db, pid);
    RemovePetListedPetsOwned(db, pid);
    RemovePetEffect(db, pid);
    SameProfilesPreserve(db, RemovePet(db, pid));
  }

  lemma RemoveUserPreserves(db: Db, uid: Id)
    requires Consistent(db)
    ensures Consistent(RemoveUser(db, uid))
  {
    var r := RemoveUser(db, uid);
    RemoveUserEffect(db, uid);
    forall u, i | u in r.users && 0 <= i < |r.users[u].pets|
      ensures r.users[u].pets[i] in r.pets && r.pets[r.users[u].pets[i]].owner == u
    {
      assert db.users[u].pets[i] in db.pets;
    }
  }

  lemma UpdateUserBackRefs(db: Db, uid: Id, u: User)
    requires OwnersListPets(db) && ListedPetsOwned(db)
    requires uid in db.users && u.pets == db.users[uid].pets
    ensures OwnersListPets(UpdateUser(db, uid, u)) && ListedPetsOwned(UpdateUser(db, uid, u))
  {
    var r := UpdateUser(db, uid, u);
    forall v, i | v in r.users && 0 <= i < |r.users[v].pets|
      ensures r.users[v].pets[i] in r.pets && r.pets[r.users[v].pets[i]].owner == v
    {
      assert r.users[v].pets[i] == db.users[v].pets[i];
    }
  }

  lemma UpdateUserUnique(db: Db, uid: Id, u: User)
    requires Unique(db) && uid in db.users
    requires !TakenByOther(db.users, uid, u.email, u.contact)
    ensures Unique(UpdateUser(db, uid, u))
  {
  }

  lemma UpdateUserPreserves(db: Db, uid: Id, u: User)
    requires Consistent(db) && uid in db.users
    requires UserWellFormed(u) && u.pets == db.users[uid].pets
    requires !TakenByOther(db.users, uid, u.email, u.contact)
    ensures Consistent(UpdateUser(db, uid, u))
  {
    UpdateUserBackRefs(db, uid, u);
    UpdateUserUnique(db, uid, u);
    UsersWellFormedUpdate(db.users, uid, u);
  }
}
